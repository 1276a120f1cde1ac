// Days and timestamps of the scheduler: the civil-day arithmetic against a day count by
// years and months, and timestamps with a zone against the instants they name.
module Calendar {
  import opened Wire

  predicate IsLeapYear(year: int) {
    year % 4 == 0 && (year % 100 != 0 || year % 400 == 0)
  }

  function DaysInMonth(year: int, month: nat): nat
    requires 1 <= month <= 12
  {
    match month
    case 2 => if IsLeapYear(year) then 29 else 28
    case 4 => 30
    case 6 => 30
    case 9 => 30
    case 11 => 30
    case _ => 31
  }

  // days_from_civil; / is math.floor of the quotient.
  function DaysFromCivil(year: int, month: nat, day: nat): int
    requires 1 <= month <= 12
  {
    var y := year - (if month <= 2 then 1 else 0);
    var era := y / 400;
    var yearOfEra := y - era * 400;
    var monthPrime := if month > 2 then month - 3 else month + 9;
    var dayOfYear := (153 * monthPrime + 2) / 5 + day - 1;
    var dayOfEra := yearOfEra * 365 + yearOfEra / 4 - yearOfEra / 100 + dayOfYear;
    era * 146097 + dayOfEra - 719468
  }

  // The reference: count years from 1970, then months, then days.

  function DaysInYear(year: int): nat {
    if IsLeapYear(year) then 366 else 365
  }

  function YearStart(year: int): int
    decreases if year >= 1970 then year - 1970 else 1970 - year
  {
    if year == 1970 then 0
    else if year > 1970 then YearStart(year - 1) + DaysInYear(year - 1)
    else YearStart(year + 1) - DaysInYear(year)
  }

  function MonthStart(year: int, month: nat): nat
    requires 1 <= month <= 12
  {
    if month == 1 then 0 else MonthStart(year, month - 1) + DaysInMonth(year, month - 1)
  }

  function DayCount(year: int, month: nat, day: nat): int
    requires 1 <= month <= 12
  {
    YearStart(year) + MonthStart(year, month) + day - 1
  }

  // Years counted without eras

  function Leaps(y: int): int {
    y / 4 - y / 100 + y / 400
  }

  lemma EraFree(y: int)
    ensures var era := y / 400;
      var r := y - era * 400;
      era * 146097 + r * 365 + r / 4 - r / 100 == 365 * y + Leaps(y)
  {
    var era := y / 400;
    var r := y - era * 400;
    assert 0 <= r < 400;
    assert y / 4 == 100 * era + r / 4;
    assert y / 100 == 4 * era + r / 100;
  }

  lemma LeapsStep(y: int)
    ensures Leaps(y) - Leaps(y - 1) == if IsLeapYear(y) then 1 else 0
  {
    assert y / 4 - (y - 1) / 4 == if y % 4 == 0 then 1 else 0;
    assert y / 100 - (y - 1) / 100 == if y % 100 == 0 then 1 else 0;
    assert y / 400 - (y - 1) / 400 == if y % 400 == 0 then 1 else 0;
    assert y % 400 == 0 ==> y % 100 == 0;
    assert y % 100 == 0 ==> y % 4 == 0;
  }

  // The days before a month, counted from March in the year before if it is 1 or 2
  function MarchDays(month: nat): nat
    requires 1 <= month <= 12
  {
    (153 * (if month > 2 then month - 3 else month + 9) + 2) / 5
  }

  lemma CivilWithoutEras(year: int, month: nat, day: nat)
    requires 1 <= month <= 12
    ensures var y := if month <= 2 then year - 1 else year;
      DaysFromCivil(year, month, day) == 365 * y + Leaps(y) + MarchDays(month) + day - 1 - 719468
  {
    EraFree(if month <= 2 then year - 1 else year);
  }

  lemma {:induction false} YearStartIs(year: int)
    ensures YearStart(year) == 365 * (year - 1) + Leaps(year - 1) + MarchDays(1) - 719468
    decreases if year >= 1970 then year - 1970 else 1970 - year
  {
    if year > 1970 {
      YearStartIs(year - 1);
      LeapsStep(year - 1);
    } else if year < 1970 {
      YearStartIs(year + 1);
      LeapsStep(year);
    }
  }

  lemma MonthStartIs(year: int, month: nat)
    requires 1 <= month <= 12
    ensures MonthStart(year, month) ==
      if month <= 2 then MarchDays(month) - MarchDays(1) else MarchDays(month) + 59 + if IsLeapYear(year) then 1 else 0
  {
    assert MonthStart(year, 2) == 31;
    assert MonthStart(year, 3) == 59 + if IsLeapYear(year) then 1 else 0;
    assert MonthStart(year, 4) == MonthStart(year, 3) + 31;
    assert MonthStart(year, 5) == MonthStart(year, 4) + 30;
    assert MonthStart(year, 6) == MonthStart(year, 5) + 31;
    assert MonthStart(year, 7) == MonthStart(year, 6) + 30;
    assert MonthStart(year, 8) == MonthStart(year, 7) + 31;
    assert MonthStart(year, 9) == MonthStart(year, 8) + 31;
    assert MonthStart(year, 10) == MonthStart(year, 9) + 30;
    assert MonthStart(year, 11) == MonthStart(year, 10) + 31;
    assert MonthStart(year, 12) == MonthStart(year, 11) + 30;
  }

  // The era arithmetic counts days, for every year before or after 1970.
  lemma CivilCountsDays(year: int, month: nat, day: nat)
    requires 1 <= month <= 12
    ensures DaysFromCivil(year, month, day) == DayCount(year, month, day)
  {
    hide DaysFromCivil, YearStart, MonthStart, Leaps, IsLeapYear;
    CivilWithoutEras(year, month, day);
    YearStartIs(year);
    MonthStartIs(year, month);
    LeapsStep(year);
  }

  datatype Date = Date(year: int, month: nat, day: nat)

  predicate ValidDate(d: Date) {
    1 <= d.month <= 12 && 1 <= d.day <= DaysInMonth(d.year, d.month)
  }

  function Tomorrow(d: Date): (t: Date)
    requires ValidDate(d)
    ensures ValidDate(t)
  {
    if d.day < DaysInMonth(d.year, d.month) then d.(day := d.day + 1)
    else if d.month < 12 then Date(d.year, d.month + 1, 1)
    else Date(d.year + 1, 1, 1)
  }

  function DayOf(d: Date): int
    requires ValidDate(d)
  {
    DaysFromCivil(d.year, d.month, d.day)
  }

  lemma YearAhead(year: int)
    ensures YearStart(year + 1) == YearStart(year) + DaysInYear(year)
    ensures MonthStart(year, 12) + 31 == DaysInYear(year)
  {
    hide IsLeapYear;
    MonthStartIs(year, 12);
  }

  lemma ConsecutiveDays(d: Date)
    requires ValidDate(d)
    ensures DayOf(Tomorrow(d)) == DayOf(d) + 1
  {
    hide YearStart, IsLeapYear, DaysFromCivil;
    var t := Tomorrow(d);
    CivilCountsDays(d.year, d.month, d.day);
    CivilCountsDays(t.year, t.month, t.day);
    YearAhead(d.year);
  }

  predicate Earlier(a: Date, b: Date) {
    a.year < b.year || (a.year == b.year && (a.month < b.month || (a.month == b.month && a.day < b.day)))
  }

  lemma {:induction false} YearsGrow(a: int, b: int)
    requires a <= b
    ensures YearStart(a) + 365 * (b - a) <= YearStart(b)
    decreases b - a
  {
    if a < b {
      YearsGrow(a, b - 1);
      YearAhead(b - 1);
    }
  }

  lemma {:induction false} MonthsGrow(year: int, a: nat, b: nat)
    requires 1 <= a <= b <= 12
    ensures MonthStart(year, a) <= MonthStart(year, b)
    ensures a < b ==> MonthStart(year, a) + DaysInMonth(year, a) <= MonthStart(year, b)
    decreases b - a
  {
    if a < b {
      MonthsGrow(year, a, b - 1);
    }
  }

  // Later dates have greater numbers, so that different dates have different ones.
  lemma DatesGrow(a: Date, b: Date)
    requires ValidDate(a) && ValidDate(b)
    ensures Earlier(a, b) <==> DayOf(a) < DayOf(b)
    ensures a == b <==> DayOf(a) == DayOf(b)
  {
    hide YearStart, IsLeapYear, DaysFromCivil, MonthStart;
    if Earlier(a, b) {
      EarlierIsLess(a, b);
    } else if Earlier(b, a) {
      EarlierIsLess(b, a);
    }
  }

  lemma WithinYear(d: Date)
    requires ValidDate(d)
    ensures YearStart(d.year) <= DayOf(d) < YearStart(d.year + 1)
  {
    hide YearStart, IsLeapYear, DaysFromCivil, MonthStart;
    CivilCountsDays(d.year, d.month, d.day);
    MonthsGrow(d.year, d.month, 12);
    YearAhead(d.year);
  }

  lemma EarlierIsLess(a: Date, b: Date)
    requires ValidDate(a) && ValidDate(b) && Earlier(a, b)
    ensures DayOf(a) < DayOf(b)
  {
    hide YearStart, IsLeapYear, DaysFromCivil, MonthStart;
    if a.year < b.year {
      WithinYear(a);
      WithinYear(b);
      YearsGrow(a.year + 1, b.year);
    } else {
      CivilCountsDays(a.year, a.month, a.day);
      CivilCountsDays(b.year, b.month, b.day);
      MonthsGrow(a.year, a.month, b.month);
    }
  }
}
