/** The tables and ranges of the date forms, spelled out, with one moment followed through both of them. */
module DateTables {
  import opened Base
  import opened Calendar
  import opened HttpDates
  import opened Text
  import T = Timestamps

  // ---- tables ----

  const DAY_NAMES: string := "ThuFriSatSunMonTueWed"

  /** The month names of RFC 9110, in their order. */
  lemma MonthNames()
    ensures |MONTHS| == 12
    ensures MONTHS[0] == "Jan" && MONTHS[1] == "Feb" && MONTHS[2] == "Mar" && MONTHS[3] == "Apr"
    ensures MONTHS[4] == "May" && MONTHS[5] == "Jun" && MONTHS[6] == "Jul" && MONTHS[7] == "Aug"
    ensures MONTHS[8] == "Sep" && MONTHS[9] == "Oct" && MONTHS[10] == "Nov" && MONTHS[11] == "Dec"
  {
  }

  lemma DayNames(day: nat)
    requires day < 7
    ensures |WEEKDAYS| == 7 && WEEKDAYS[day] == DAY_NAMES[3 * day..3 * day + 3]
  {
    assert DAY_NAMES == WEEKDAYS[0] + (WEEKDAYS[1] + (WEEKDAYS[2] + (WEEKDAYS[3] + (WEEKDAYS[4]
      + (WEEKDAYS[5] + WEEKDAYS[6])))));
  }

  const MONTH_LENGTHS: seq<nat> := [31, 28, 31, 30, 31, 30, 31, 31, 30, 31, 30, 31]

  /** The Gregorian calendar: a leap year gives February one day more. */
  lemma MonthTable(year: int, month: nat)
    requires 1 <= month <= 12
    ensures MonthDays(year, month) == MONTH_LENGTHS[month - 1] + (if month == 2 && YearDays(year) == 366 then 1 else 0)
    ensures YearDays(year) == 366 <==> year % 400 == 0 || (year % 4 == 0 && year % 100 != 0)
    ensures YearDays(year) == 365 || YearDays(year) == 366
  {
  }

  /** The widths that the source computes with. */
  lemma Widths()
    ensures U32_MAX == 4_294_967_295 && U64_MAX == 18_446_744_073_709_551_615
    ensures I64_MAX == 9_223_372_036_854_775_807 && I64_MIN == -9_223_372_036_854_775_808
    ensures NANOS == 1_000_000_000 && USIZE_MAX == 18_446_744_073_709_551_615
  {
  }

  // ---- ranges ----

  /** Which numbers a stamp of the identity routes may hold. */
  lemma StrictMeans(f: T.Fields)
    ensures T.StrictFields(f) <==>
      && (f.t == 'T' || f.t == 't')
      && 1 <= f.month <= 12 && 1 <= f.day
      && f.day <= MONTH_LENGTHS[f.month - 1] + (if f.month == 2 && YearDays(f.year) == 366 then 1 else 0)
      && f.hour < 24 && f.minute < 60 && f.second < 61
  {
    if 1 <= f.month <= 12 {
      MonthTable(f.year, f.month);
    }
  }

  /** Which numbers the reader of an offer takes: any month of 31 days, no leap second. */
  lemma LooseMeans(f: T.Fields)
    ensures T.LooseFields(f) <==>
      f.t == 'T' && 0 < f.month < 13 && 0 < f.day < 32 && f.hour < 24 && f.minute < 60 && f.second < 60
  {
  }

  lemma ClockRange(clock: Clock)
    ensures ValidClock(clock) <==> 0 <= clock.hour <= 23 && 0 <= clock.minute <= 59 && 0 <= clock.second <= 60
    ensures ClockSeconds(clock) == (clock.hour * 60 + clock.minute) * 60 + clock.second
  {
  }

  /** A zone is `Z` in either case, or a sign, two digits of hours below 24, a colon and minutes below 60. */
  lemma ZoneMeans(zone: T.Zone)
    ensures T.ValidZone(zone) <==>
      || zone == T.Utc('Z') || zone == T.Utc('z')
      || (zone.Offset? && (zone.sign == '+' || zone.sign == '-') && zone.hour < 24 && zone.minute < 60)
  {
  }

  /** Seconds of a date by plain counting: days since 1970-01-01, with a day past its month counted on. */
  lemma SecondsMean(f: T.Fields)
    requires 1 <= f.month <= 12
    ensures T.Seconds(f) == (DayNumber(Date(f.year, f.month, f.day)) * 24 + f.hour) * 3_600 + (f.minute * 60 + f.second)
  {
    FormulaCounts(Date(f.year, f.month, f.day));
  }

  lemma EpochMeans(year: int, month: nat, day: nat, clock: Clock)
    requires 1 <= month <= 12
    ensures var t := (DayNumber(Date(year, month, day)) * 24 + clock.hour) * 3_600 + (clock.minute * 60 + clock.second);
      Epoch(year, month, day, clock) == (if t < 0 then None else Some(t))
  {
    FormulaCounts(Date(year, month, day));
  }

  // ---- what is printed ----

  /** The number of a day fixes its date. */
  lemma DateOfNumber(n: nat, d: Date)
    requires d.Valid() && DaysFromCivil(d.year, d.month, d.day) == n
    ensures DateOf(n) == d
  {
    DateOfIsRight(n);
    FormulaKeepsOrder(DateOf(n), d);
  }

  /** What is printed for a time: the date of its day, its hour, minute and second, and the name of its weekday. */
  lemma PrintedForms(t: nat, d: Date)
    requires d.Valid() && DaysFromCivil(d.year, d.month, d.day) == t / 86_400
    ensures var f, i := T.Fields(d.year, d.month, d.day, 'T', t % 86_400 / 3_600, t / 60 % 60, t % 60), 3 * (t / 86_400 % 7);
      T.IsoText(t) == T.HeadText(f) + "Z" && ImfText(t) == HttpDateText(DAY_NAMES[i..i + 3] + ",", f)
  {
    DateOfNumber(t / 86_400, d);
    DayNames(t / 86_400 % 7);
    OfTheDay(t);
    assert T.FieldsOf(t) == T.Fields(d.year, d.month, d.day, 'T', t % 86_400 / 3_600, t / 60 % 60, t % 60);
  }

  lemma OfTheDay(t: nat)
    ensures t % 86_400 / 60 % 60 == t / 60 % 60 && t % 86_400 % 60 == t % 60
  {
    var q, r := t / 86_400, t % 86_400;
    assert t == 60 * (1_440 * q) + r && t / 60 == 60 * (24 * q) + r / 60;
  }

  lemma {:induction false} TwoDigits(n: nat)
    requires n < 100
    ensures Padded(n, 2) == [DigitChar(n / 10), DigitChar(n % 10)]
  {
    assert Padded(n, 2) == Padded(n / 10, 1) + [DigitChar(n % 10)];
    assert Padded(n / 10, 1) == Padded(n / 10 / 10, 0) + [DigitChar(n / 10 % 10)];
  }

  /** The places of an offset: its sign, two digits of hours, a colon and two digits of minutes. */
  lemma OffsetPlaces(sign: char, hour: nat, minute: nat)
    requires hour < 100 && minute < 100
    ensures T.ZoneText(T.Offset(sign, hour, minute)) ==
      [sign, DigitChar(hour / 10), DigitChar(hour % 10), ':', DigitChar(minute / 10), DigitChar(minute % 10)]
    ensures T.ZoneText(T.Utc(sign)) == [sign]
  {
    TwoDigits(hour);
    TwoDigits(minute);
  }
}
