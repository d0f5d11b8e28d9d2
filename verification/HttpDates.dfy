/** `Retry-After`: a number of seconds, or a date in the form IMF-fixdate. */
module HttpDates {
  import opened Base
  import opened Calendar
  import opened Text
  import T = Timestamps

  const U32_MAX: nat := 0xFFFF_FFFF
  const U64_MAX: nat := 0xFFFF_FFFF_FFFF_FFFF
  const NANOS: nat := 1_000_000_000

  const MONTHS: seq<string> :=
    ["Jan", "Feb", "Mar", "Apr", "May", "Jun", "Jul", "Aug", "Sep", "Oct", "Nov", "Dec"]

  const WEEKDAYS: seq<string> := ["Thu", "Fri", "Sat", "Sun", "Mon", "Tue", "Wed"]

  /** The place of a name, from place `i` on. */
  function Position(names: seq<string>, name: string, i: nat): Option<nat>
    decreases |names| - i
  {
    if i >= |names| then None else if names[i] == name then Some(i) else Position(names, name, i + 1)
  }

  datatype Clock = Clock(hour: int, minute: int, second: int)

  function ParseClock(text: string): Option<Clock> {
    var parts := SplitAll(text, ':');
    if |parts| != 3 then None
    else match (ParseI64(parts[0]), ParseI64(parts[1]), ParseI64(parts[2]))
    case (Some(hour), Some(minute), Some(second)) =>
      if 0 <= hour < 24 && 0 <= minute < 60 && 0 <= second <= 60 then Some(Clock(hour, minute, second)) else None
    case _ => None
  }

  /** The seconds of a date and a clock; nothing before 1970. */
  function Epoch(year: int, month: nat, day: nat, clock: Clock): Option<nat> {
    var seconds := DaysFromCivil(year, month, day) * 86_400 + clock.hour * 3_600 + clock.minute * 60 + clock.second;
    if seconds < 0 then None else Some(seconds)
  }

  function ParseHttpDate(value: string): Option<nat> {
    ParseDateWords(Words(value))
  }

  function ParseDateWords(words: seq<string>): Option<nat> {
    if |words| != 6 || words[5] != "GMT" then None
    else match (ParseUnsigned(words[1], U32_MAX), Position(MONTHS, words[2], 0))
    case (Some(day), Some(month)) =>
      (match (ParseI64(words[3]), ParseClock(words[4]))
       case (Some(year), Some(clock)) => if 1 <= day <= 31 then Epoch(year, month + 1, day, clock) else None
       case _ => None)
    case _ => None
  }

  // ---- printing and reading ----

  function ClockText(hour: nat, minute: nat, second: nat): string {
    Padded(hour, 2) + [':'] + (Padded(minute, 2) + [':'] + Padded(second, 2))
  }

  lemma ClockParts(a: string, b: string, c: string)
    requires ':' !in a && ':' !in b && ':' !in c
    ensures SplitAll(a + [':'] + (b + [':'] + c), ':') == [a, b, c]
  {
    SplitAllStep(a, ':', b + [':'] + c);
    SplitAllStep(b, ':', c);
    SplitAllOnce(c, ':');
  }

  lemma ClockReadsBack(hour: nat, minute: nat, second: nat)
    requires hour < 24 && minute < 60 && second <= 60
    ensures ParseClock(ClockText(hour, minute, second)) == Some(Clock(hour, minute, second))
  {
    T.Pow10s();
    PaddedParses(hour, 2, U32_MAX);
    PaddedParses(minute, 2, U32_MAX);
    PaddedParses(second, 2, U32_MAX);
    ClockParts(Padded(hour, 2), Padded(minute, 2), Padded(second, 2));
  }

  lemma ClockIsWord(hour: nat, minute: nat, second: nat)
    ensures NoSpace(ClockText(hour, minute, second)) && ClockText(hour, minute, second) != ""
  {
  }

  lemma MonthReadsBack(month: nat)
    requires 1 <= month <= 12
    ensures Position(MONTHS, MONTHS[month - 1], 0) == Some(month - 1)
    ensures MONTHS[month - 1] != "" && NoSpace(MONTHS[month - 1])
  {
    PositionFrom(month - 1, 0);
  }

  lemma MonthsDiffer(i: nat, j: nat)
    requires i < j < 12
    ensures MONTHS[i] != MONTHS[j]
  {
    assert MONTHS[i][0] != MONTHS[j][0] || MONTHS[i][1] != MONTHS[j][1] || MONTHS[i][2] != MONTHS[j][2];
  }

  lemma {:induction false} PositionFrom(month: nat, i: nat)
    requires i <= month < 12
    ensures Position(MONTHS, MONTHS[month], i) == Some(month)
    decreases month - i
  {
    if i < month {
      MonthsDiffer(i, month);
      PositionFrom(month, i + 1);
    }
  }

  predicate IsWord(w: string) {
    w != "" && NoSpace(w)
  }

  function SixText(a: string, b: string, c: string, d: string, e: string, f: string): string {
    a + [' '] + (b + [' '] + (c + [' '] + (d + [' '] + (e + [' '] + f))))
  }

  /** Six words with a space between them are read as these words. */
  lemma SixWords(a: string, b: string, c: string, d: string, e: string, f: string)
    requires IsWord(a) && IsWord(b) && IsWord(c) && IsWord(d) && IsWord(e) && IsWord(f)
    ensures Words(SixText(a, b, c, d, e, f)) == [a] + ([b] + ([c] + ([d] + ([e] + [f]))))
  {
    LastWord(f);
    WordsStep(e, f);
    WordsStep(d, e + [' '] + f);
    WordsStep(c, d + [' '] + (e + [' '] + f));
    WordsStep(b, c + [' '] + (d + [' '] + (e + [' '] + f)));
    WordsStep(a, b + [' '] + (c + [' '] + (d + [' '] + (e + [' '] + f))));
  }

  /** A date as a server sends it; the reader does not look at the name of the day. */
  function HttpDateText(weekday: string, f: T.Fields): string
    requires 1 <= f.month <= 12
  {
    SixText(weekday, Padded(f.day, 2), MONTHS[f.month - 1], Padded(f.year, 4), ClockText(f.hour, f.minute, f.second), "GMT")
  }

  lemma PartsAreWords(f: T.Fields)
    requires T.Fit(f) && 1 <= f.month <= 12
    ensures IsWord(Padded(f.day, 2)) && IsWord(MONTHS[f.month - 1]) && IsWord(Padded(f.year, 4))
    ensures IsWord(ClockText(f.hour, f.minute, f.second))
  {
    T.Pow10s();
    PaddedParses(f.day, 2, U32_MAX);
    PaddedParses(f.year, 4, U32_MAX);
    MonthReadsBack(f.month);
    ClockIsWord(f.hour, f.minute, f.second);
  }

  lemma HttpDateWords(weekday: string, f: T.Fields)
    requires T.Fit(f) && 1 <= f.month <= 12 && IsWord(weekday)
    ensures Words(HttpDateText(weekday, f)) ==
      [weekday] + ([Padded(f.day, 2)] + ([MONTHS[f.month - 1]] + ([Padded(f.year, 4)] +
        ([ClockText(f.hour, f.minute, f.second)] + ["GMT"]))))
  {
    PartsAreWords(f);
    SixWords(weekday, Padded(f.day, 2), MONTHS[f.month - 1], Padded(f.year, 4), ClockText(f.hour, f.minute, f.second), "GMT");
  }

  lemma DateWordsRead(words: seq<string>, year: int, month: nat, day: nat, clock: Clock)
    requires |words| == 6 && words[5] == "GMT" && 1 <= month && 1 <= day <= 31
    requires ParseUnsigned(words[1], U32_MAX) == Some(day) && Position(MONTHS, words[2], 0) == Some(month - 1)
    requires ParseI64(words[3]) == Some(year) && ParseClock(words[4]) == Some(clock)
    ensures ParseDateWords(words) == Epoch(year, month, day, clock)
  {
  }

  lemma PrintedWordsRead(weekday: string, f: T.Fields)
    requires T.Fit(f) && 1 <= f.month <= 12 && 1 <= f.day <= 31 && f.hour < 24 && f.minute < 60 && f.second <= 60
    ensures ParseDateWords([weekday] + ([Padded(f.day, 2)] + ([MONTHS[f.month - 1]] + ([Padded(f.year, 4)] +
        ([ClockText(f.hour, f.minute, f.second)] + ["GMT"])))))
      == Epoch(f.year, f.month, f.day, Clock(f.hour, f.minute, f.second))
  {
    T.Pow10s();
    PaddedParses(f.day, 2, U32_MAX);
    PaddedParses(f.year, 4, U32_MAX);
    MonthReadsBack(f.month);
    ClockReadsBack(f.hour, f.minute, f.second);
    var words := [weekday] + ([Padded(f.day, 2)] + ([MONTHS[f.month - 1]] + ([Padded(f.year, 4)] +
      ([ClockText(f.hour, f.minute, f.second)] + ["GMT"]))));
    DateWordsRead(words, f.year, f.month, f.day, Clock(f.hour, f.minute, f.second));
  }

  /** A printed date is read as its seconds, whatever the name of the day and the length of the month. */
  lemma HttpDateReadsBack(weekday: string, f: T.Fields)
    requires T.Fit(f) && 1 <= f.month <= 12 && 1 <= f.day <= 31 && f.hour < 24 && f.minute < 60 && f.second <= 60
    requires weekday != "" && NoSpace(weekday)
    ensures ParseHttpDate(HttpDateText(weekday, f)) == Epoch(f.year, f.month, f.day, Clock(f.hour, f.minute, f.second))
  {
    HttpDateWords(weekday, f);
    PrintedWordsRead(weekday, f);
  }

  /** A time as IMF-fixdate, section 5.6.7 of RFC 9110: `Sun, 06 Nov 1994 08:49:37 GMT`. */
  function ImfText(t: nat): string {
    T.FieldsAreRight(t);
    HttpDateText(WEEKDAYS[t / 86_400 % 7] + ",", T.FieldsOf(t))
  }

  lemma WeekdayWord(i: nat)
    requires i < 7
    ensures WEEKDAYS[i] + "," != "" && NoSpace(WEEKDAYS[i] + ",")
  {
  }

  /** Every time up to the end of year 9999 is printed as IMF-fixdate and read back. */
  lemma ImfRoundTrip(t: nat)
    requires DateOf(t / 86_400).year <= 9999
    ensures ParseHttpDate(ImfText(t)) == Some(t)
  {
    T.FieldsAreRight(t);
    WeekdayWord(t / 86_400 % 7);
    FieldsReadBack(WEEKDAYS[t / 86_400 % 7] + ",", T.FieldsOf(t), t);
  }

  lemma FieldsReadBack(weekday: string, f: T.Fields, t: nat)
    requires f.year <= 9999 && T.LooseFields(f) && T.Seconds(f) == t && weekday != "" && NoSpace(weekday)
    ensures ParseHttpDate(HttpDateText(weekday, f)) == Some(t)
  {
    HttpDateReadsBack(weekday, f);
    EpochIsSeconds(f);
  }

  lemma EpochIsSeconds(f: T.Fields)
    requires T.Seconds(f) >= 0
    ensures Epoch(f.year, f.month, f.day, Clock(f.hour, f.minute, f.second)) == Some(T.Seconds(f))
  {
    BothCopiesAgree(f.year, f.month, f.day);
  }

  /** Both readers of a time agree: what is printed in both forms is read as one number. */
  lemma BothReadersAgree(t: nat)
    requires DateOf(t / 86_400).year <= 9999
    ensures T.ParseUtcSeconds(T.IsoText(t)) == Some(t) && ParseHttpDate(ImfText(t)) == Some(t)
  {
    T.IsoRoundTrip(t);
    ImfRoundTrip(t);
  }

  // ---- the width of the source ----

  predicate InI64(n: int) {
    I64_MIN <= n <= I64_MAX
  }

  predicate ValidClock(clock: Clock) {
    0 <= clock.hour < 24 && 0 <= clock.minute < 60 && 0 <= clock.second <= 60
  }

  function ClockSeconds(clock: Clock): int {
    clock.hour * 3_600 + clock.minute * 60 + clock.second
  }

  /** Every value on the way to the seconds of a date stays within 64 bits. */
  predicate Fits(year: int, month: nat, day: nat, clock: Clock) {
    var y := if month <= 2 then year - 1 else year;
    var days := DaysFromCivil(year, month, day);
    && InI64(y) && InI64(y / 400 * 146_097) && InI64(days + 719_468)
    && InI64(days) && InI64(days * 86_400) && InI64(days * 86_400 + clock.hour * 3_600)
    && InI64(days * 86_400 + clock.hour * 3_600 + clock.minute * 60)
    && InI64(days * 86_400 + ClockSeconds(clock))
  }

  /** The first day whose seconds fit 64 bits: 28 January of the year -292277022657. */
  const FIRST_DAY: int := -106_751_991_167_300

  lemma DaysAreBounded(year: int, month: nat, day: nat)
    requires 1 <= month <= 12 && 1 <= day <= 31
    ensures var y := if month <= 2 then year - 1 else year;
      0 <= DaysFromCivil(year, month, day) + 719_468 - y / 400 * 146_097 <= 147_000
  {
  }

  /** The exact condition for one date and clock, on their seconds. */
  lemma FitsExactly(year: int, month: nat, day: nat, clock: Clock)
    requires 1 <= month <= 12 && 1 <= day <= 31 && ValidClock(clock)
    ensures Fits(year, month, day, clock) <==>
      FIRST_DAY <= DaysFromCivil(year, month, day)
      && DaysFromCivil(year, month, day) * 86_400 + ClockSeconds(clock) <= I64_MAX
  {
    DaysAreBounded(year, month, day);
  }

  const FIRST_FITTING_YEAR: int := -292_277_022_656
  const LAST_FITTING_YEAR: int := 292_277_026_595

  const MIDNIGHT: Clock := Clock(0, 0, 0)

  ghost predicate YearFits(year: int) {
    forall month: nat, day: nat, clock {:trigger Fits(year, month, day, clock)} ::
      1 <= month <= 12 && 1 <= day <= 31 && ValidClock(clock) ==> Fits(year, month, day, clock)
  }

  lemma InsideFits(year: int, month: nat, day: nat, clock: Clock)
    requires 1 <= month <= 12 && 1 <= day <= 31 && ValidClock(clock)
    requires FIRST_FITTING_YEAR <= year <= LAST_FITTING_YEAR
    ensures Fits(year, month, day, clock)
  {
  }

  /** The last day of which a part fits 64 bits: 4 December of the year 292277026596. */
  const LAST_DAY: int := 106_751_991_167_300

  lemma DayIsAdded(year: int, month: nat, day: nat)
    ensures DaysFromCivil(year, month, day) == DaysFromCivil(year, month, 1) + day - 1
  {
  }

  lemma LastDates()
    ensures DaysFromCivil(LAST_FITTING_YEAR + 1, 12, 4) == LAST_DAY
    ensures DaysFromCivil(LAST_FITTING_YEAR + 1, 12, 5) == LAST_DAY + 1
  {
  }

  lemma FirstDates()
    ensures DaysFromCivil(FIRST_FITTING_YEAR - 1, 1, 28) == FIRST_DAY
    ensures DaysFromCivil(FIRST_FITTING_YEAR - 2, 12, 31) == FIRST_DAY - 28
  {
  }

  /** A day after the last one does not fit. */
  lemma LateDay(year: int, month: nat, day: nat, clock: Clock)
    requires 1 <= month <= 12 && 1 <= day <= 31 && ValidClock(clock)
    requires DaysFromCivil(year, month, day) > LAST_DAY
    ensures !Fits(year, month, day, clock)
  {
    FitsExactly(year, month, day, clock);
  }

  lemma LaterYear(year: int)
    requires year > LAST_FITTING_YEAR
    ensures !Fits(year, 12, 31, MIDNIGHT)
  {
    LastDates();
    FormulaKeepsOrder(Date(LAST_FITTING_YEAR + 1, 12, 5), Date(year, 12, 31));
    LateDay(year, 12, 31, MIDNIGHT);
  }

  lemma EarlierYear(year: int)
    requires year < FIRST_FITTING_YEAR
    ensures !Fits(year, 1, 1, MIDNIGHT)
  {
    FirstDates();
    FormulaKeepsOrder(Date(year, 1, 1), Date(FIRST_FITTING_YEAR - 1, 1, 28));
    FitsExactly(year, 1, 1, MIDNIGHT);
  }

  /** Every date and clock of a year fits 64 bits exactly for the years from -292277022656 to 292277026595. */
  lemma YearsThatFit(year: int)
    ensures YearFits(year) <==> FIRST_FITTING_YEAR <= year <= LAST_FITTING_YEAR
  {
    if year > LAST_FITTING_YEAR {
      LaterYear(year);
    } else if year < FIRST_FITTING_YEAR {
      EarlierYear(year);
    } else {
      forall month: nat, day: nat, clock | 1 <= month <= 12 && 1 <= day <= 31 && ValidClock(clock)
        ensures Fits(year, month, day, clock)
      {
        InsideFits(year, month, day, clock);
      }
    }
  }

  /** Days of a month of the last year, from its last day on. */
  function DaysPast(month: nat, day: nat): int
    requires 1 <= month <= 12
  {
    MonthStart(LAST_FITTING_YEAR + 1, month) - MonthStart(LAST_FITTING_YEAR + 1, 12) + day - 4
  }

  lemma DaysPastMeans(month: nat, day: nat)
    requires 1 <= month <= 12 && 1 <= day <= 31
    ensures DaysPast(month, day) < 0 <==> month < 12 || day < 4
    ensures DaysPast(month, day) == 0 <==> month == 12 && day == 4
    ensures -400 < DaysPast(month, day)
  {
  }

  lemma LastYearDays(month: nat, day: nat)
    requires 1 <= month <= 12
    ensures DaysFromCivil(LAST_FITTING_YEAR + 1, month, day) == LAST_DAY + DaysPast(month, day)
  {
    LastDates();
    FormulaCounts(Date(LAST_FITTING_YEAR + 1, month, day));
    FormulaCounts(Date(LAST_FITTING_YEAR + 1, 12, 4));
    MonthStarts(LAST_FITTING_YEAR + 1, month);
    MonthStarts(LAST_FITTING_YEAR + 1, 12);
  }

  lemma LastSeconds(past: int, clock: Clock)
    requires ValidClock(clock)
    ensures (LAST_DAY + past) * 86_400 + ClockSeconds(clock) <= I64_MAX <==>
      past < 0 || (past == 0 && ClockSeconds(clock) <= 15 * 3_600 + 30 * 60 + 7)
  {
  }

  /** The last year that still has dates that fit: up to 4 December, 15:30:07. */
  lemma LastYearByDate(month: nat, day: nat, clock: Clock)
    requires 1 <= month <= 12 && 1 <= day <= 31 && ValidClock(clock)
    ensures Fits(LAST_FITTING_YEAR + 1, month, day, clock) <==>
      || month < 12 || day < 4 || (day == 4 && ClockSeconds(clock) <= 15 * 3_600 + 30 * 60 + 7)
  {
    FitsExactly(LAST_FITTING_YEAR + 1, month, day, clock);
    LastYearDays(month, day);
    DaysPastMeans(month, day);
    LastSeconds(DaysPast(month, day), clock);
  }

  /** The first year that still has dates that fit: from 28 January on. */
  lemma FirstYearByDate(month: nat, day: nat, clock: Clock)
    requires 1 <= month <= 12 && 1 <= day <= 31 && ValidClock(clock)
    ensures Fits(FIRST_FITTING_YEAR - 1, month, day, clock) <==> month > 1 || day >= 28
  {
    FitsExactly(FIRST_FITTING_YEAR - 1, month, day, clock);
    DayIsAdded(FIRST_FITTING_YEAR - 1, month, day);
    DayIsAdded(FIRST_FITTING_YEAR - 1, 1, 28);
    FirstDates();
    FormulaKeepsOrder(Date(FIRST_FITTING_YEAR - 1, 1, 28), Date(FIRST_FITTING_YEAR - 1, month, 1));
    FormulaKeepsOrder(Date(FIRST_FITTING_YEAR - 1, month, 1), Date(1970, 1, 1));
  }

  /** No date of any other year fits. */
  lemma NoDateFits(year: int, month: nat, day: nat, clock: Clock)
    requires 1 <= month <= 12 && 1 <= day <= 31 && ValidClock(clock)
    requires year < FIRST_FITTING_YEAR - 1 || year > LAST_FITTING_YEAR + 1
    ensures !Fits(year, month, day, clock)
  {
    FitsExactly(year, month, day, clock);
    DayIsAdded(year, month, day);
    if year > LAST_FITTING_YEAR {
      LastDates();
      FormulaKeepsOrder(Date(LAST_FITTING_YEAR + 1, 12, 5), Date(year, month, 1));
    } else {
      FirstDates();
      FormulaKeepsOrder(Date(year, month, 1), Date(FIRST_FITTING_YEAR - 2, 12, 31));
    }
  }

  /** A header with a plain year of any length. */
  function PlainYearText(year: nat): string {
    SixText("Thu,", "01", "Jan", Decimal(year), "00:00:00", "GMT")
  }

  lemma PlainYearWords(year: nat)
    ensures Words(PlainYearText(year)) == ["Thu,"] + (["01"] + (["Jan"] + ([Decimal(year)] + (["00:00:00"] + ["GMT"]))))
  {
    DecimalRoundTrip(year);
    SixWords("Thu,", "01", "Jan", Decimal(year), "00:00:00", "GMT");
  }

  lemma SmallTexts()
    ensures Padded(0, 2) == "00" && Padded(1, 2) == "01"
    ensures ClockText(0, 0, 0) == "00:00:00"
  {
    assert Padded(0, 1) == "0" && Padded(1, 1) == "1";
    assert Padded(0, 2) == Padded(0, 1) + ['0'] && Padded(1, 2) == Padded(0, 1) + ['1'];
  }

  lemma FirstMidnight()
    ensures ParseUnsigned("01", U32_MAX) == Some(1) && Position(MONTHS, "Jan", 0) == Some(0)
    ensures ParseClock("00:00:00") == Some(MIDNIGHT)
  {
    SmallTexts();
    T.Pow10s();
    PaddedParses(1, 2, U32_MAX);
    ClockReadsBack(0, 0, 0);
  }

  lemma DecimalParses(n: nat)
    requires n <= I64_MAX
    ensures ParseI64(Decimal(n)) == Some(n)
  {
    DecimalRoundTrip(n);
    assert IsDigit(Decimal(n)[0]);
  }

  /** The reader takes any year that itself fits 64 bits, and computes the formula for it. */
  lemma PlainYearIsRead(year: nat)
    requires year <= I64_MAX
    ensures ParseHttpDate(PlainYearText(year)) == Epoch(year, 1, 1, MIDNIGHT)
  {
    var words := Words(PlainYearText(year));
    PlainYearWords(year);
    assert |words| == 6 && words[1] == "01" && words[2] == "Jan" && words[3] == Decimal(year)
      && words[4] == "00:00:00" && words[5] == "GMT";
    FirstMidnight();
    DecimalParses(year);
    DateWordsRead(words, year, 1, 1, MIDNIGHT);
  }

  /** So the header of a plain year stays within 64 bits exactly up to the year 292277026596. */
  lemma HeaderFits(year: nat)
    requires year <= I64_MAX
    ensures ParseHttpDate(PlainYearText(year)) == Epoch(year, 1, 1, MIDNIGHT)
    ensures Fits(year, 1, 1, MIDNIGHT) <==> year <= LAST_FITTING_YEAR + 1
  {
    PlainYearIsRead(year);
    if year <= LAST_FITTING_YEAR {
      InsideFits(year, 1, 1, MIDNIGHT);
    } else if year == LAST_FITTING_YEAR + 1 {
      LastYearByDate(1, 1, MIDNIGHT);
    } else {
      NoDateFits(year, 1, 1, MIDNIGHT);
    }
  }

  // ---- Retry-After ----

  /** The wait, in nanoseconds, that a header asks for at the time `now` of the epoch in nanoseconds. */
  function ParseRetryAfter(value: string, now: int): Option<nat> {
    var text := Trim(value);
    if text != "" && AllDigits(text) then WaitSeconds(ParseUnsigned(text, U64_MAX))
    else WaitUntil(ParseHttpDate(text), now)
  }

  function WaitSeconds(seconds: Option<nat>): Option<nat> {
    match seconds
    case None => None
    case Some(n) => Some(n * NANOS)
  }

  function WaitUntil(when: Option<nat>, now: int): Option<nat> {
    match when
    case None => None
    case Some(t) => Some(if t * NANOS >= now then t * NANOS - now else 0)
  }

  /** Digits are a number of seconds, whatever zeros lead them and whatever white space is around them. */
  lemma RetryAfterSeconds(before: string, digits: string, after: string, now: int)
    requires AllSpace(before) && AllSpace(after) && digits != "" && AllDigits(digits)
    ensures ParseRetryAfter(before + digits + after, now) ==
      if DecimalValue(digits) <= U64_MAX then Some(DecimalValue(digits) * NANOS) else None
  {
    assert IsDigit(digits[0]) && IsDigit(digits[|digits| - 1]);
    TrimsSpace(before, digits, after);
  }

  /** A date ahead is the time until then; a date already past means now. */
  lemma RetryAfterDate(t: nat, now: int)
    requires DateOf(t / 86_400).year <= 9999
    ensures ParseRetryAfter(ImfText(t), now) == Some(if t * NANOS > now then t * NANOS - now else 0)
  {
    ImfRoundTrip(t);
    ImfEnds(t);
    NoSecondsThere(ImfText(t), now);
    WaitFor(t, now);
  }

  lemma NoSecondsThere(value: string, now: int)
    requires value != "" && !IsSpace(value[0]) && !IsSpace(value[|value| - 1]) && !IsDigit(value[0])
    ensures ParseRetryAfter(value, now) == WaitUntil(ParseHttpDate(value), now)
  {
    TrimKeeps(value);
    assert !AllDigits(value);
  }

  lemma WaitFor(t: nat, now: int)
    ensures WaitUntil(Some(t), now) == Some(if t * NANOS > now then t * NANOS - now else 0)
  {
  }

  lemma ImfEnds(t: nat)
    ensures var s := ImfText(t);
      s != "" && !IsSpace(s[0]) && !IsSpace(s[|s| - 1]) && !IsDigit(s[0]) && s[|s| - 1] == 'T'
  {
    var f := T.FieldsOf(t);
    T.FieldsAreRight(t);
    WeekdayWord(t / 86_400 % 7);
    var weekday := WEEKDAYS[t / 86_400 % 7] + ",";
    assert ImfText(t)[0] == weekday[0];
    TextEnds(weekday, f);
  }

  lemma TextEnds(weekday: string, f: T.Fields)
    requires 1 <= f.month <= 12
    ensures |HttpDateText(weekday, f)| > 0 && HttpDateText(weekday, f)[|HttpDateText(weekday, f)| - 1] == 'T'
  {
    var a := ClockText(f.hour, f.minute, f.second) + [' '] + "GMT";
    assert a[|a| - 1] == 'T';
    var b := Padded(f.year, 4) + [' '] + a;
    assert b[|b| - 1] == 'T';
    var c := MONTHS[f.month - 1] + [' '] + b;
    assert c[|c| - 1] == 'T';
    var d := Padded(f.day, 2) + [' '] + c;
    assert d[|d| - 1] == 'T';
  }
}
