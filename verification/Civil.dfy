/**
 The two halves of the Gregorian day count: `civil_from_days`
 (crates/owney-core/src/time.rs) and `days_from_civil`
 (crates/owney-ai/src/ics.rs).  The reference is day-by-day counting from
 1970-01-01 with leap years and month lengths written out; the arithmetic forms
 are proved equal to it for every integer day number.
 */
module Civil {
  import opened Arithmetic

  datatype Date = Date(year: int, month: int, day: int)

  const EPOCH := Date(1970, 1, 1)

  // ---- the calendar, written out ------------------------------------------

  predicate IsLeap(y: int) {
    y % 4 == 0 && (y % 100 != 0 || y % 400 == 0)
  }

  function DaysInMonth(y: int, m: int): int {
    if m == 2 then (if IsLeap(y) then 29 else 28)
    else if m == 4 || m == 6 || m == 9 || m == 11 then 30
    else 31
  }

  predicate IsDate(d: Date) {
    && 1 <= d.month <= 12
    && 1 <= d.day <= DaysInMonth(d.year, d.month)
  }

  /** The next day of the calendar. */
  function Successor(d: Date): Date {
    if d.day < DaysInMonth(d.year, d.month) then Date(d.year, d.month, d.day + 1)
    else if d.month < 12 then Date(d.year, d.month + 1, 1)
    else Date(d.year + 1, 1, 1)
  }

  /** The previous day of the calendar. */
  function Predecessor(d: Date): Date {
    if d.day > 1 then Date(d.year, d.month, d.day - 1)
    else if d.month > 1 then Date(d.year, d.month - 1, DaysInMonth(d.year, d.month - 1))
    else Date(d.year - 1, 12, 31)
  }

  /** The date reached by walking `z` days from the epoch, one day at a time. */
  function CountDays(z: int): Date
    decreases if z < 0 then -z else z
  {
    if z == 0 then EPOCH
    else if z > 0 then Successor(CountDays(z - 1))
    else Predecessor(CountDays(z + 1))
  }

  predicate Earlier(a: Date, b: Date) {
    || a.year < b.year
    || (a.year == b.year && a.month < b.month)
    || (a.year == b.year && a.month == b.month && a.day < b.day)
  }

  // ---- the arithmetic of the source ---------------------------------------

  /** `civil_from_days`: `/` and `%` here are Euclidean, as `div_euclid` and `rem_euclid`. */
  function CivilFromDays(days: int): Date {
    var z := days + 719_468;
    var era := z / 146_097;
    var doe := z % 146_097;
    var yoe := (doe - doe / 1460 + doe / 36_524 - doe / 146_096) / 365;
    var y := yoe + era * 400;
    var doy := doe - (365 * yoe + yoe / 4 - yoe / 100);
    MarchDate(y, doy)
  }

  /** The tail of `civil_from_days`: day `doy` of the year that starts on 1 March of `y`. */
  function MarchDate(y: int, doy: int): Date {
    var mp := (5 * doy + 2) / 153;
    var d := doy - (153 * mp + 2) / 5 + 1;
    var m := if mp < 10 then mp + 3 else mp - 9;
    Date(if m <= 2 then y + 1 else y, m, d)
  }

  /** `days_from_civil`; like the source it does not check that `d` exists in the month. */
  function DaysFromCivil(year: int, m: int, d: int): int {
    MarchDays(if m <= 2 then year - 1 else year, DayOfMarchYear(m, d))
  }

  /** Day of the year that starts on 1 March. */
  function DayOfMarchYear(m: int, d: int): int {
    (153 * (if m > 2 then m - 3 else m + 9) + 2) / 5 + d - 1
  }

  /** The tail of `days_from_civil`: days since the epoch of day `doy` of March-based year `y`. */
  function MarchDays(y: int, doy: int): int {
    var era := y / 400;
    var yoe := y % 400;
    var doe := yoe * 365 + yoe / 4 - yoe / 100 + doy;
    era * 146_097 + doe - 719_468
  }

  function DayNumber(d: Date): int {
    DaysFromCivil(d.year, d.month, d.day)
  }

  // ---- one era of 400 years, counted from 1 March --------------------------

  /** Whether the March-based year `yoe` of an era ends with a 29 February. */
  predicate EndsInLeapDay(yoe: int) {
    IsLeap(yoe + 1)
  }

  /** The division chain of `civil_from_days` recovers the year of the era. */
  lemma YearOfEra(yoe: int, doy: int)
    requires 0 <= yoe < 400 && 0 <= doy <= 365
    requires doy == 365 ==> EndsInLeapDay(yoe)
    ensures var doe := yoe * 365 + yoe / 4 - yoe / 100 + doy;
            && 0 <= doe < 146_097
            && (doe - doe / 1460 + doe / 36_524 - doe / 146_096) / 365 == yoe
  {
    var c, u := yoe / 100, yoe % 100;
    var q, r := u / 4, u % 4;
    Quotient(yoe, 4, 25 * c + q, r);
    Quotient(yoe + 1, 100, if u == 99 then c + 1 else c, if u == 99 then 0 else u + 1);
    YearParts(c, q, r, doy);
  }

  /** `YearOfEra` for a year given as centuries, olympiads and years. */
  lemma YearParts(c: int, q: int, r: int, doy: int)
    requires 0 <= c < 4 && 0 <= q < 25 && 0 <= r < 4 && 0 <= doy <= 365
    requires doy == 365 ==> r == 3 && (q == 24 ==> c == 3)
    ensures var doe := 36_524 * c + 1461 * q + 365 * r + doy;
            && 0 <= doe < 146_097
            && (doe - doe / 1460 + doe / 36_524 - doe / 146_096) / 365 == 100 * c + 4 * q + r
  {
    var doe := 36_524 * c + 1461 * q + 365 * r + doy;
    var t := 24 * c + q + 365 * r + doy;
    var over := if t >= 1460 then 1 else 0;
    Quotient(doe, 1460, 25 * c + q + over, t - 1460 * over);
    if doe == 146_096 {
      assert doe / 36_524 - doe / 146_096 == c;
    } else {
      Quotient(doe, 36_524, c, doe - 36_524 * c);
    }
    Quotient(doe - doe / 1460 + c, 365, 100 * c + 4 * q + r, doy - over);
  }

  /** The first six lines of `civil_from_days`, on a day given by its parts. */
  lemma FromParts(era: int, yoe: int, doy: int)
    requires 0 <= yoe < 400 && 0 <= doy <= 365
    requires doy == 365 ==> EndsInLeapDay(yoe)
    ensures CivilFromDays(era * 146_097 + (yoe * 365 + yoe / 4 - yoe / 100 + doy) - 719_468)
         == MarchDate(yoe + era * 400, doy)
  {
    var doe := yoe * 365 + yoe / 4 - yoe / 100 + doy;
    YearOfEra(yoe, doy);
    Quotient(era * 146_097 + doe, 146_097, era, doe);
  }

  /** `MarchDate` recovers month and day from the March-based day of year. */
  lemma MonthOfYear(y: int, m: int, d: int)
    requires 1 <= m <= 12 && 1 <= d <= DaysInMonth(4, m)
    ensures var doy := DayOfMarchYear(m, d);
            && 0 <= doy <= 365
            && (doy == 365 ==> m == 2 && d == 29)
            && MarchDate(y, doy) == Date(if m <= 2 then y + 1 else y, m, d)
  {
  }

  /** On valid dates `civil_from_days` undoes `days_from_civil`. */
  lemma CivilInvertsDays(d: Date)
    requires IsDate(d)
    ensures CivilFromDays(DayNumber(d)) == d
  {
    var y := if d.month <= 2 then d.year - 1 else d.year;
    MonthOfYear(y, d.month, d.day);
    YearInEra(y, DayOfMarchYear(d.month, d.day));
  }

  lemma YearInEra(y: int, doy: int)
    requires 0 <= doy <= 365 && (doy == 365 ==> IsLeap(y + 1))
    ensures CivilFromDays(MarchDays(y, doy)) == MarchDate(y, doy)
  {
    var era, yoe := y / 400, y % 400;
    LeapByEra(y + 1, yoe + 1, era);
    FromParts(era, yoe, doy);
    assert yoe + era * 400 == y;
  }

  /** Whole eras do not change which years are leap years. */
  lemma LeapByEra(a: int, b: int, eras: int)
    requires a == 400 * eras + b
    ensures IsLeap(a) == IsLeap(b)
  {
    Quotient(a, 4, 100 * eras + b / 4, b % 4);
    Quotient(a, 100, 4 * eras + b / 100, b % 100);
    Quotient(a, 400, eras + b / 400, b % 400);
  }

  // ---- walking one day -----------------------------------------------------

  lemma SuccessorCounts(d: Date)
    requires IsDate(d)
    ensures IsDate(Successor(d))
    ensures DayNumber(Successor(d)) == DayNumber(d) + 1
    ensures Earlier(d, Successor(d))
  {
    if d.day == DaysInMonth(d.year, d.month) {
      if d.month == 2 {
        MarchFollowsFebruary(d.year);
      } else if d.month < 12 {
        MonthFollows(d.year, d.month);
      } else {
        YearFollows(d.year);
      }
    }
  }

  lemma MonthFollows(y: int, m: int)
    requires 1 <= m < 12 && m != 2
    ensures DaysFromCivil(y, m + 1, 1) == DaysFromCivil(y, m, DaysInMonth(y, m)) + 1
  {
    assert DayOfMarchYear(m + 1, 1) == DayOfMarchYear(m, DaysInMonth(y, m)) + 1;
  }

  lemma YearFollows(y: int)
    ensures DaysFromCivil(y + 1, 1, 1) == DaysFromCivil(y, 12, 31) + 1
  {
    assert DayOfMarchYear(1, 1) == DayOfMarchYear(12, 31) + 1;
  }

  /** 1 March is one day after the last day of February. */
  lemma MarchFollowsFebruary(y: int)
    ensures DaysFromCivil(y, 3, 1) == DaysFromCivil(y, 2, DaysInMonth(y, 2)) + 1
  {
    var k, r := y / 400, y % 400;
    LeapByEra(y, r, k);
    if r > 0 {
      Quotient(y - 1, 400, k, r - 1);
      LeapDayInCount(r);
    } else {
      Quotient(y - 1, 400, k - 1, 399);
    }
  }

  /** The quotients of the day count step exactly at leap years. */
  lemma LeapDayInCount(r: int)
    requires 0 < r < 400
    ensures r / 4 - r / 100 == (r - 1) / 4 - (r - 1) / 100 + (if IsLeap(r) then 1 else 0)
  {
  }

  lemma PredecessorInvertsSuccessor(d: Date)
    requires IsDate(d)
    ensures IsDate(Predecessor(d)) && Successor(Predecessor(d)) == d
  {
  }

  // ---- main results --------------------------------------------------------

  lemma {:induction false} CountedDate(z: int)
    ensures IsDate(CountDays(z)) && DayNumber(CountDays(z)) == z
    decreases if z < 0 then -z else z
  {
    if z > 0 {
      CountedDate(z - 1);
      SuccessorCounts(CountDays(z - 1));
    } else if z < 0 {
      CountedDate(z + 1);
      PredecessorInvertsSuccessor(CountDays(z + 1));
      SuccessorCounts(CountDays(z));
    }
  }

  /** The fast form equals day-by-day counting, for every integer day number. */
  lemma FastCalendarIsCounting(z: int)
    ensures CivilFromDays(z) == CountDays(z)
  {
    CountedDate(z);
    CivilInvertsDays(CountDays(z));
  }

  /** `civil_from_days(z + 1)` is the Gregorian successor of `civil_from_days(z)`. */
  lemma NextDay(z: int)
    ensures IsDate(CivilFromDays(z))
    ensures CivilFromDays(z + 1) == Successor(CivilFromDays(z))
  {
    FastCalendarIsCounting(z);
    FastCalendarIsCounting(z + 1);
    CountedDate(z);
    CountingSteps(z);
  }

  /** The two functions, which live in different crates, are mutual inverses. */
  lemma MutualInverses(z: int, d: Date)
    ensures DayNumber(CivilFromDays(z)) == z
    ensures IsDate(d) <==> CivilFromDays(DayNumber(d)) == d
  {
    FastCalendarIsCounting(z);
    CountedDate(z);
    if IsDate(d) {
      CivilInvertsDays(d);
    } else {
      NextDay(DayNumber(d));
    }
  }

  lemma {:induction false} CountingIsIncreasing(a: int, b: int)
    requires a < b
    ensures Earlier(CountDays(a), CountDays(b))
    decreases b - a
  {
    CountedDate(b - 1);
    SuccessorCounts(CountDays(b - 1));
    CountingSteps(b - 1);
    if a < b - 1 {
      CountingIsIncreasing(a, b - 1);
    }
  }

  lemma CountingSteps(z: int)
    ensures CountDays(z + 1) == Successor(CountDays(z))
  {
    if z < 0 {
      CountedDate(z + 1);
      PredecessorInvertsSuccessor(CountDays(z + 1));
    }
  }

  /** Day order is lexicographic (year, month, day) order. */
  lemma DayOrderIsDateOrder(a: int, b: int)
    ensures a < b <==> Earlier(CivilFromDays(a), CivilFromDays(b))
  {
    FastCalendarIsCounting(a);
    FastCalendarIsCounting(b);
    if a < b {
      CountingIsIncreasing(a, b);
    } else if b < a {
      CountingIsIncreasing(b, a);
    }
  }
}
