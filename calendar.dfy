/**
 * The month and year of a millisecond timestamp, as `Date.prototype.getMonth`,
 * `getFullYear` and the long month name of `toLocaleString` give them, in UTC
 * and the proleptic Gregorian calendar.
 */
module Calendar {

  const MsPerDay: int := 86400000

  /** Days in a 400-year Gregorian cycle; the cycle starting on 1 January 2000 is one of them. */
  const DaysPerCycle: int := 146097

  /** 1 January 1970 as a day number counted from 1 January 2000. */
  const EpochDayFrom2000: int := -10957

  predicate IsLeapYear(y: int)
  {
    y % 4 == 0 && (y % 100 != 0 || y % 400 == 0)
  }

  function DaysInYear(y: int): nat
  {
    if IsLeapYear(y) then 366 else 365
  }

  function DaysInMonth(m: int, leap: bool): nat
    requires 1 <= m <= 12
  {
    if m == 2 then (if leap then 29 else 28)
    else if m == 4 || m == 6 || m == 9 || m == 11 then 30
    else 31
  }

  /** A month (1 to 12) of a year. */
  datatype MonthYear = MonthYear(month: nat, year: int)

  /** The year, and the day within it, of the day `d` days after 1 January of `y`. */
  function YearFrom(y: int, d: nat): (r: (int, nat))
    ensures r.1 < DaysInYear(r.0) && y <= r.0
    decreases d
  {
    if d < DaysInYear(y) then (y, d) else YearFrom(y + 1, d - DaysInYear(y))
  }

  /** The month, from `m` on, holding day `d` of a year counted from the first day of month `m`. */
  function MonthFrom(m: nat, d: nat, leap: bool): (r: nat)
    requires 1 <= m <= 12
    ensures m <= r <= 12
    decreases 12 - m
  {
    if m == 12 || d < DaysInMonth(m, leap) then m
    else MonthFrom(m + 1, d - DaysInMonth(m, leap), leap)
  }

  /** The (month, year) a timestamp in milliseconds since 1970 falls in. */
  function MonthYearOf(t: int): (r: MonthYear)
    ensures 1 <= r.month <= 12
  {
    var day := t / MsPerDay + EpochDayFrom2000;
    var cycle := day / DaysPerCycle;
    var yd := YearFrom(2000 + 400 * cycle, day % DaysPerCycle);
    MonthYear(MonthFrom(1, yd.1, IsLeapYear(yd.0)), yd.0)
  }

  const MonthNames: seq<string> := [
    "January", "February", "March", "April", "May", "June",
    "July", "August", "September", "October", "November", "December"
  ]

  function MonthName(m: nat): string
    requires 1 <= m <= 12
  {
    MonthNames[m - 1]
  }

  /** The long month name of a timestamp, without its year. */
  function MonthNameOf(t: int): string
  {
    MonthName(MonthYearOf(t).month)
  }

  /** Leap years repeat every 400 years. */
  lemma LeapYearsRepeat(y: int)
    ensures IsLeapYear(y + 400) == IsLeapYear(y)
  {
  }

  /** Counting days from a year 400 years later gives the year 400 years later. */
  lemma {:induction false} YearFromShift(y: int, d: nat)
    ensures YearFrom(y + 400, d) == (YearFrom(y, d).0 + 400, YearFrom(y, d).1)
    decreases d
  {
    LeapYearsRepeat(y);
    if d >= DaysInYear(y) {
      YearFromShift(y + 1, d - DaysInYear(y));
    }
  }

  /** A timestamp one 400-year cycle later falls in the same month, 400 years later. */
  lemma MonthYearRepeatsEvery400Years(t: int)
    ensures var a, b := MonthYearOf(t), MonthYearOf(t + DaysPerCycle * MsPerDay);
            b.month == a.month && b.year == a.year + 400
  {
    var day := t / MsPerDay + EpochDayFrom2000;
    DayShift(t);
    CycleShift(day);
    var cycle := day / DaysPerCycle;
    YearFromShift(2000 + 400 * cycle, day % DaysPerCycle);
    LeapYearsRepeat(YearFrom(2000 + 400 * cycle, day % DaysPerCycle).0);
  }

  /** One 400-year cycle of milliseconds later is one cycle of days later. */
  lemma DayShift(t: int)
    ensures (t + DaysPerCycle * MsPerDay) / MsPerDay == t / MsPerDay + DaysPerCycle
  {
  }

  /** One cycle of days later is the next cycle, on the same day of it. */
  lemma CycleShift(day: int)
    ensures (day + DaysPerCycle) / DaysPerCycle == day / DaysPerCycle + 1
    ensures (day + DaysPerCycle) % DaysPerCycle == day % DaysPerCycle
  {
  }
}
