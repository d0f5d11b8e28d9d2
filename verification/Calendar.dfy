/** Days of the proleptic Gregorian calendar: the formula of the source against plain counting. */
module Calendar {

  // ---- the formula ----

  /** Days from 1970-01-01 to a date. */
  function DaysFromCivil(year: int, month: nat, day: nat): int {
    var y := if month <= 2 then year - 1 else year;
    var era := y / 400;
    var yearOfEra := y % 400;
    var shiftedMonth := (month + 9) % 12;
    var dayOfYear := (153 * shiftedMonth + 2) / 5 + day - 1;
    var dayOfEra := yearOfEra * 365 + yearOfEra / 4 - yearOfEra / 100 + dayOfYear;
    era * 146_097 + dayOfEra - 719_468
  }

  /** The second copy of the formula, inside the reader of the pairing offer. */
  function DaysFromFields(year: int, month: nat, day: nat): int {
    var y := if month <= 2 then year - 1 else year;
    var era := y / 400;
    var yearOfEra := y - era * 400;
    var monthFromMarch := (month + 9) % 12;
    var dayOfYear := (153 * monthFromMarch + 2) / 5 + day - 1;
    var dayOfEra := yearOfEra * 365 + yearOfEra / 4 - yearOfEra / 100 + dayOfYear;
    era * 146_097 + dayOfEra - 719_468
  }

  lemma BothCopiesAgree(year: int, month: nat, day: nat)
    ensures DaysFromFields(year, month, day) == DaysFromCivil(year, month, day)
  {
    var y := if month <= 2 then year - 1 else year;
    assert y == 400 * (y / 400) + y % 400;
  }

  // ---- plain counting ----

  predicate IsLeap(year: int) {
    year % 4 == 0 && (year % 100 != 0 || year % 400 == 0)
  }

  function YearDays(year: int): nat {
    if IsLeap(year) then 366 else 365
  }

  function MonthDays(year: int, month: nat): nat {
    if month == 2 then (if IsLeap(year) then 29 else 28)
    else if month in {4, 6, 9, 11} then 30
    else 31
  }

  /** Days from the start of 1970 to the start of a year: the lengths of the years between them. */
  function DaysToYear(year: int): int
    decreases if year >= 1970 then year - 1970 else 1970 - year
  {
    if year == 1970 then 0
    else if year > 1970 then DaysToYear(year - 1) + YearDays(year - 1)
    else DaysToYear(year + 1) - YearDays(year)
  }

  /** Days from the start of a year to the start of a month. */
  function DaysToMonth(year: int, month: nat): nat {
    if month <= 1 then 0 else DaysToMonth(year, month - 1) + MonthDays(year, month - 1)
  }

  datatype Date = Date(year: int, month: nat, day: nat) {
    predicate Valid() {
      1 <= month <= 12 && 1 <= day <= MonthDays(year, month)
    }
  }

  function DayNumber(d: Date): int {
    DaysToYear(d.year) + DaysToMonth(d.year, d.month) + d.day - 1
  }

  // ---- the formula counts ----

  /** The first of March of a year, by the formula. */
  function MarchFirst(year: int): int {
    DaysFromCivil(year, 3, 1)
  }

  lemma Mod4(k: int, r: int)
    ensures (4 * k + r) % 4 == r % 4
  {
  }

  lemma Mod100(k: int, r: int)
    ensures (100 * k + r) % 100 == r % 100
  {
  }

  lemma Mod400(k: int, r: int)
    ensures (400 * k + r) % 400 == r % 400
  {
  }

  lemma LeapParts(era: int, r: int)
    ensures (400 * era + r) % 4 == r % 4 && (400 * era + r) % 100 == r % 100
  {
    Mod4(100 * era, r);
    Mod100(4 * era, r);
    assert 400 * era + r == 4 * (100 * era) + r && 400 * era + r == 100 * (4 * era) + r;
  }

  lemma LeapInEra(era: int, r: int)
    requires 0 <= r < 400
    ensures IsLeap(400 * era + r) <==> r % 4 == 0 && (r % 100 != 0 || r == 0)
  {
    LeapParts(era, r);
    Mod400(era, r);
  }

  lemma MarchIs(era: int, r: int)
    requires 0 <= r < 400
    ensures MarchFirst(400 * era + r) == era * 146_097 + r * 365 + r / 4 - r / 100 - 719_468
  {
    assert (400 * era + r) / 400 == era;
    assert (400 * era + r) % 400 == r;
  }

  lemma MarchStep(era: int, r: int)
    requires 0 < r < 400
    ensures MarchFirst(400 * era + r) == MarchFirst(400 * era + (r - 1)) + YearDays(400 * era + r)
  {
    LeapInEra(era, r);
    MarchIs(era, r);
    MarchIs(era, r - 1);
    QuotientStep(r, 4);
    QuotientStep(r, 100);
    if r % 100 == 0 {
      LeapByStep(r);
    }
  }

  lemma LeapByStep(r: int)
    requires 0 < r < 400 && r % 100 == 0
    ensures r % 4 == 0
  {
  }

  lemma EraStep(era: int)
    ensures MarchFirst(400 * era) == MarchFirst(400 * (era - 1) + 399) + YearDays(400 * era)
  {
    LeapInEra(era, 0);
    MarchIs(era, 0);
    MarchIs(era - 1, 399);
  }

  /** From one March to the next there is one February. */
  lemma MarchToMarch(year: int)
    ensures MarchFirst(year) == MarchFirst(year - 1) + YearDays(year)
  {
    var era, r := year / 400, year % 400;
    assert year == 400 * era + r;
    if r > 0 {
      MarchStep(era, r);
      assert 400 * era + (r - 1) == year - 1;
    } else {
      EraStep(era);
      assert 400 * (era - 1) + 399 == year - 1;
    }
  }

  lemma QuotientStep(r: int, n: int)
    requires r > 0 && (n == 4 || n == 100)
    ensures r / n == (r - 1) / n + (if r % n == 0 then 1 else 0)
  {
  }

  /** The first of January is 306 days after the first of March before it. */
  lemma JanuaryFirst(year: int)
    ensures DaysFromCivil(year, 1, 1) == MarchFirst(year - 1) + 306
  {
  }

  lemma {:induction false} YearsAreCounted(year: int)
    ensures DaysFromCivil(year, 1, 1) == DaysToYear(year)
    decreases if year >= 1970 then year - 1970 else 1970 - year
  {
    JanuaryFirst(year);
    if year > 1970 {
      YearsAreCounted(year - 1);
      JanuaryFirst(year - 1);
      MarchToMarch(year - 1);
    } else if year < 1970 {
      YearsAreCounted(year + 1);
      JanuaryFirst(year + 1);
      MarchToMarch(year);
    }
  }

  /** Within a year the formula counts the lengths of the months. */
  lemma MonthsAreCounted(year: int, month: nat)
    requires 1 <= month <= 12
    ensures DaysFromCivil(year, month, 1) == DaysFromCivil(year, 1, 1) + DaysToMonth(year, month)
  {
    JanuaryFirst(year);
    MarchToMarch(year);
    MonthStarts(year, month);
    MonthOffsets(year, month);
  }

  /** Days before each month. */
  function MonthStart(year: int, month: nat): nat
    requires 1 <= month <= 12
  {
    var leap := if IsLeap(year) then 1 else 0;
    match month
    case 1 => 0
    case 2 => 31
    case 3 => 59 + leap
    case 4 => 90 + leap
    case 5 => 120 + leap
    case 6 => 151 + leap
    case 7 => 181 + leap
    case 8 => 212 + leap
    case 9 => 243 + leap
    case 10 => 273 + leap
    case 11 => 304 + leap
    case 12 => 334 + leap
  }

  lemma {:induction false} MonthStarts(year: int, month: nat)
    requires 1 <= month <= 12
    ensures DaysToMonth(year, month) == MonthStart(year, month)
  {
    if month > 1 {
      MonthStarts(year, month - 1);
    }
  }

  lemma MonthOffsets(year: int, month: nat)
    requires 1 <= month <= 12
    ensures DaysFromCivil(year, month, 1) ==
      if month <= 2 then MarchFirst(year - 1) + 306 + MonthStart(year, month)
      else MarchFirst(year) + MonthStart(year, month) - MonthStart(year, 3)
  {
    assert (153 * ((month + 9) % 12) + 2) / 5 ==
      if month <= 2 then 306 + MonthStart(year, month) else MonthStart(year, month) - MonthStart(year, 3);
  }

  lemma DaysAreCounted(year: int, month: nat, day: nat)
    ensures DaysFromCivil(year, month, day) == DaysFromCivil(year, month, 1) + day - 1
  {
  }

  /** For every month and day the formula equals plain counting from 1970-01-01; so does its second copy. */
  lemma FormulaCounts(d: Date)
    requires 1 <= d.month <= 12
    ensures DaysFromCivil(d.year, d.month, d.day) == DayNumber(d)
    ensures DaysFromFields(d.year, d.month, d.day) == DayNumber(d)
  {
    BothCopiesAgree(d.year, d.month, d.day);
    DaysAreCounted(d.year, d.month, d.day);
    MonthsAreCounted(d.year, d.month);
    YearsAreCounted(d.year);
  }

  // ---- the next day and the order ----

  function NextDate(d: Date): Date {
    if d.day < MonthDays(d.year, d.month) then d.(day := d.day + 1)
    else if d.month < 12 then Date(d.year, d.month + 1, 1)
    else Date(d.year + 1, 1, 1)
  }

  lemma NextNumber(d: Date)
    requires d.Valid()
    ensures NextDate(d).Valid() && DayNumber(NextDate(d)) == DayNumber(d) + 1
  {
    if d.day < MonthDays(d.year, d.month) {
    } else if d.month < 12 {
      assert DaysToMonth(d.year, d.month + 1) == DaysToMonth(d.year, d.month) + MonthDays(d.year, d.month);
    } else {
      MonthStarts(d.year, 12);
      YearStep(d.year);
    }
  }

  /** The next day has the next number. */
  lemma NextDayAddsOne(d: Date)
    requires d.Valid()
    ensures NextDate(d).Valid()
    ensures DaysFromCivil(NextDate(d).year, NextDate(d).month, NextDate(d).day) == DaysFromCivil(d.year, d.month, d.day) + 1
  {
    NextNumber(d);
    FormulaCounts(d);
    FormulaCounts(NextDate(d));
  }

  lemma YearStep(year: int)
    ensures DaysToYear(year + 1) == DaysToYear(year) + YearDays(year)
  {
  }

  predicate Earlier(a: Date, b: Date) {
    || a.year < b.year
    || (a.year == b.year && (a.month < b.month || (a.month == b.month && a.day < b.day)))
  }

  lemma {:induction false} YearsGrow(a: int, b: int)
    requires a < b
    ensures DaysToYear(a) + YearDays(a) <= DaysToYear(b)
    decreases b - a
  {
    YearStep(a);
    if a + 1 < b {
      YearsGrow(a + 1, b);
    }
  }

  lemma {:induction false} MonthsGrow(year: int, a: nat, b: nat)
    requires 1 <= a < b
    ensures DaysToMonth(year, a) + MonthDays(year, a) <= DaysToMonth(year, b)
    decreases b
  {
    if a + 1 < b {
      MonthsGrow(year, a, b - 1);
    }
  }

  lemma DayInYear(d: Date)
    requires d.Valid()
    ensures DaysToMonth(d.year, d.month) + d.day - 1 < YearDays(d.year)
  {
    MonthStarts(d.year, d.month);
  }

  lemma EarlierIsLess(a: Date, b: Date)
    requires a.Valid() && b.Valid() && Earlier(a, b)
    ensures DayNumber(a) < DayNumber(b)
  {
    if a.year < b.year {
      YearsGrow(a.year, b.year);
      DayInYear(a);
    } else if a.month < b.month {
      MonthsGrow(a.year, a.month, b.month);
    }
  }

  /** The formula keeps the order of dates, both ways, so no two dates share a number. */
  lemma FormulaKeepsOrder(a: Date, b: Date)
    requires a.Valid() && b.Valid()
    ensures Earlier(a, b) <==> DaysFromCivil(a.year, a.month, a.day) < DaysFromCivil(b.year, b.month, b.day)
    ensures a == b <==> DaysFromCivil(a.year, a.month, a.day) == DaysFromCivil(b.year, b.month, b.day)
  {
    FormulaCounts(a);
    FormulaCounts(b);
    if Earlier(a, b) {
      EarlierIsLess(a, b);
    } else if Earlier(b, a) {
      EarlierIsLess(b, a);
    }
  }

  // ---- the date of a day ----

  /** The date of day `n` after 1970-01-01, one day after the other. */
  function DateOf(n: nat): (d: Date)
    ensures d.year >= 1970
  {
    if n == 0 then Date(1970, 1, 1) else NextDate(DateOf(n - 1))
  }

  lemma {:induction false} DateOfIsRight(n: nat)
    ensures DateOf(n).Valid() && DateOf(n).year >= 1970
    ensures DaysFromCivil(DateOf(n).year, DateOf(n).month, DateOf(n).day) == n
  {
    if n > 0 {
      DateOfIsRight(n - 1);
      NextDayAddsOne(DateOf(n - 1));
    }
  }
}
