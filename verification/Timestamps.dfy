/** Timestamps of RFC 3339: the check of the identity routes and the reader of the pairing offer. */
module Timestamps {
  import opened Base
  import opened Calendar
  import opened Text

  /** The fields of the first 19 characters, and the character between date and time. */
  datatype Fields = Fields(year: nat, month: nat, day: nat, t: char, hour: nat, minute: nat, second: nat)

  /** Every field fits its width. */
  predicate Fit(f: Fields) {
    f.year < 10_000 && f.month < 100 && f.day < 100 && f.hour < 100 && f.minute < 100 && f.second < 100
  }

  function HeadText(f: Fields): string {
    Padded(f.year, 4) + ['-'] + Padded(f.month, 2) + ['-'] + Padded(f.day, 2) + [f.t]
      + Padded(f.hour, 2) + [':'] + Padded(f.minute, 2) + [':'] + Padded(f.second, 2)
  }

  /** The number at a place of the text, when there are only digits. */
  function Digits(text: string, from: nat, len: nat): Option<nat> {
    if from + len <= |text| && AllDigits(text[from..from + len]) then Some(DecimalValue(text[from..from + len])) else None
  }

  predicate At(text: string, i: nat, c: char) {
    i < |text| && text[i] == c
  }

  /** The six numbers and the separators at their places. */
  function ReadHead(text: string): Option<Fields> {
    match (Digits(text, 0, 4), Digits(text, 5, 2), Digits(text, 8, 2))
    case (Some(year), Some(month), Some(day)) =>
      (match (Digits(text, 11, 2), Digits(text, 14, 2), Digits(text, 17, 2))
       case (Some(hour), Some(minute), Some(second)) =>
         if At(text, 4, '-') && At(text, 7, '-') && At(text, 13, ':') && At(text, 16, ':')
         then Some(Fields(year, month, day, text[10], hour, minute, second)) else None
       case _ => None)
    case _ => None
  }

  lemma Pow10s()
    ensures Pow10(2) == 100 && Pow10(4) == 10_000
  {
    assert Pow10(1) == 10 && Pow10(3) == 10 * Pow10(2);
  }

  /** The number that was printed at a place is read there. */
  lemma DigitsOfPadded(text: string, from: nat, len: nat, n: nat)
    requires from + len <= |text| && text[from..from + len] == Padded(n, len) && n < Pow10(len)
    ensures Digits(text, from, len) == Some(n)
  {
    PaddedRoundTrip(n, len);
  }

  lemma HeadPlaces(f: Fields)
    ensures var h := HeadText(f);
      && |h| == 19
      && h[0..4] == Padded(f.year, 4) && h[5..7] == Padded(f.month, 2) && h[8..10] == Padded(f.day, 2)
      && h[4] == '-' && h[7] == '-' && h[10] == f.t
  {
  }

  lemma HeadTimePlaces(f: Fields)
    ensures var h := HeadText(f);
      && |h| == 19
      && h[11..13] == Padded(f.hour, 2) && h[14..16] == Padded(f.minute, 2) && h[17..19] == Padded(f.second, 2)
      && h[13] == ':' && h[16] == ':'
  {
  }

  lemma SliceOfPrefix(text: string, a: nat, b: nat, n: nat)
    requires a <= b <= n <= |text|
    ensures text[..n][a..b] == text[a..b]
  {
  }

  /** A text that starts with printed fields is read as these fields. */
  lemma HeadReadsBack(f: Fields, rest: string)
    requires Fit(f)
    ensures ReadHead(HeadText(f) + rest) == Some(f)
  {
    var text := HeadText(f) + rest;
    HeadPlaces(f);
    HeadTimePlaces(f);
    Pow10s();
    assert text[..19] == HeadText(f);
    SliceOfPrefix(text, 0, 4, 19);
    SliceOfPrefix(text, 5, 7, 19);
    SliceOfPrefix(text, 8, 10, 19);
    SliceOfPrefix(text, 11, 13, 19);
    SliceOfPrefix(text, 14, 16, 19);
    SliceOfPrefix(text, 17, 19, 19);
    DigitsOfPadded(text, 0, 4, f.year);
    DigitsOfPadded(text, 5, 2, f.month);
    DigitsOfPadded(text, 8, 2, f.day);
    DigitsOfPadded(text, 11, 2, f.hour);
    DigitsOfPadded(text, 14, 2, f.minute);
    DigitsOfPadded(text, 17, 2, f.second);
    assert text[4] == text[..19][4] && text[7] == text[..19][7] && text[10] == text[..19][10];
    assert text[13] == text[..19][13] && text[16] == text[..19][16];
  }

  lemma DigitsArePrinted(text: string, from: nat, len: nat)
    requires Digits(text, from, len).Some?
    ensures Padded(Digits(text, from, len).value, len) == text[from..from + len]
    ensures Digits(text, from, len).value < Pow10(len)
  {
    DigitsArePadded(text[from..from + len]);
  }

  /** What is read is what stands there. */
  lemma HeadIsText(text: string)
    requires ReadHead(text).Some?
    ensures |text| >= 19 && Fit(ReadHead(text).value) && text[..19] == HeadText(ReadHead(text).value)
  {
    Pow10s();
    DigitsArePrinted(text, 0, 4);
    DigitsArePrinted(text, 5, 2);
    DigitsArePrinted(text, 8, 2);
    DigitsArePrinted(text, 11, 2);
    DigitsArePrinted(text, 14, 2);
    DigitsArePrinted(text, 17, 2);
    HeadPieces(text);
  }

  lemma HeadPieces(text: string)
    requires |text| >= 19
    ensures text[..19] == text[0..4] + [text[4]] + text[5..7] + [text[7]] + text[8..10] + [text[10]]
      + text[11..13] + [text[13]] + text[14..16] + [text[16]] + text[17..19]
  {
  }

  // ---- is_iso_timestamp ----

  predicate StrictFields(f: Fields) {
    && f.t in {'T', 't'}
    && Date(f.year, f.month, f.day).Valid()
    && f.hour <= 23 && f.minute <= 59 && f.second <= 60
  }

  /** The first place from `i` on without a digit. */
  function DigitsEnd(text: string, i: nat): (end: nat)
    requires i <= |text|
    ensures i <= end <= |text|
    decreases |text| - i
  {
    if i < |text| && IsDigit(text[i]) then DigitsEnd(text, i + 1) else i
  }

  predicate ZoneAt(text: string, i: nat) {
    i < |text| &&
    if text[i] in {'Z', 'z'} then i + 1 == |text|
    else if text[i] in {'+', '-'} then
      match (Digits(text, i + 1, 2), Digits(text, i + 4, 2))
      case (Some(hour), Some(minute)) => At(text, i + 3, ':') && hour <= 23 && minute <= 59 && i + 6 == |text|
      case _ => false
    else false
  }

  predicate IsIso(text: string) {
    && ReadHead(text).Some? && StrictFields(ReadHead(text).value)
    && if At(text, 19, '.') then DigitsEnd(text, 20) != 20 && ZoneAt(text, DigitsEnd(text, 20))
       else ZoneAt(text, 19)
  }

  method IsIsoTimestamp(text: string) returns (ok: bool)
    ensures ok == IsIso(text)
  {
    var head := ReadHead(text);
    if head.None? || !StrictFields(head.value) {
      return false;
    }
    var index := 19;
    if At(text, index, '.') {
      index := index + 1;
      var start := index;
      while index < |text| && IsDigit(text[index])
        invariant start <= index <= |text| && DigitsEnd(text, index) == DigitsEnd(text, start)
      {
        index := index + 1;
      }
      if index == start {
        return false;
      }
    }
    return ZoneAt(text, index);
  }

  // ---- the grammar ----

  datatype Zone = Utc(z: char) | Offset(sign: char, hour: nat, minute: nat)

  /** A `date-time` of section 5.6 of RFC 3339. */
  datatype Stamp = Stamp(fields: Fields, fraction: Option<string>, zone: Zone)

  function FractionText(fraction: Option<string>): string {
    match fraction case None => "" case Some(digits) => ['.'] + digits
  }

  predicate ValidFraction(fraction: Option<string>) {
    fraction.Some? ==> fraction.value != "" && AllDigits(fraction.value)
  }

  function ZoneText(zone: Zone): string {
    match zone
    case Utc(z) => [z]
    case Offset(sign, hour, minute) => [sign] + Padded(hour, 2) + [':'] + Padded(minute, 2)
  }

  predicate ValidZone(zone: Zone) {
    match zone
    case Utc(z) => z in {'Z', 'z'}
    case Offset(sign, hour, minute) => sign in {'+', '-'} && hour <= 23 && minute <= 59
  }

  function StampText(stamp: Stamp): string {
    HeadText(stamp.fields) + (FractionText(stamp.fraction) + ZoneText(stamp.zone))
  }

  /** Year, month with its length, hour and minute in range; second 60 is always allowed. */
  predicate ValidStamp(stamp: Stamp) {
    && Fit(stamp.fields) && StrictFields(stamp.fields) && ValidFraction(stamp.fraction) && ValidZone(stamp.zone)
  }

  lemma ZoneReadsBack(before: string, zone: Zone)
    requires ValidZone(zone)
    ensures ZoneAt(before + ZoneText(zone), |before|)
  {
    var text, i := before + ZoneText(zone), |before|;
    match zone
    case Utc(z) =>
    case Offset(sign, hour, minute) =>
      Pow10s();
      assert text[i + 1..i + 3] == Padded(hour, 2);
      assert text[i + 4..i + 6] == Padded(minute, 2);
      DigitsOfPadded(text, i + 1, 2, hour);
      DigitsOfPadded(text, i + 4, 2, minute);
  }

  lemma {:induction false} DigitsEndAt(text: string, i: nat, end: nat)
    requires i <= end <= |text| && AllDigits(text[i..end])
    requires end == |text| || !IsDigit(text[end])
    ensures DigitsEnd(text, i) == end
    decreases end - i
  {
    if i < end {
      assert text[i] == text[i..end][0];
      assert text[i + 1..end] == text[i..end][1..];
      DigitsEndAt(text, i + 1, end);
    }
  }

  lemma PlainStampIsIso(f: Fields, zone: Zone)
    requires Fit(f) && StrictFields(f) && ValidZone(zone)
    ensures IsIso(HeadText(f) + ZoneText(zone))
  {
    var head := HeadText(f);
    HeadReadsBack(f, ZoneText(zone));
    HeadPlaces(f);
    assert (head + ZoneText(zone))[19] == ZoneText(zone)[0];
    ZoneReadsBack(head, zone);
  }

  lemma FractionPlaces(head: string, digits: string, tail: string)
    requires |head| == 19 && tail != ""
    ensures var text, end := head + ['.'] + digits + tail, 20 + |digits|;
      && text == head + (['.'] + digits + tail) && |head + ['.'] + digits| == end
      && text[19] == '.' && text[20..end] == digits && text[end] == tail[0]
  {
  }

  lemma FractionStampIsIso(f: Fields, digits: string, zone: Zone)
    requires Fit(f) && StrictFields(f) && ValidZone(zone) && digits != "" && AllDigits(digits)
    ensures IsIso(HeadText(f) + ['.'] + digits + ZoneText(zone))
  {
    var before := HeadText(f) + ['.'] + digits;
    var text := before + ZoneText(zone);
    HeadPlaces(f);
    FractionPlaces(HeadText(f), digits, ZoneText(zone));
    HeadReadsBack(f, ['.'] + digits + ZoneText(zone));
    assert !IsDigit(ZoneText(zone)[0]);
    DigitsEndAt(text, 20, 20 + |digits|);
    ZoneReadsBack(before, zone);
  }

  lemma StampIsIso(stamp: Stamp)
    requires ValidStamp(stamp)
    ensures IsIso(StampText(stamp))
  {
    var head, zone := HeadText(stamp.fields), ZoneText(stamp.zone);
    match stamp.fraction
    case None =>
      assert head + ("" + zone) == head + zone;
      PlainStampIsIso(stamp.fields, stamp.zone);
    case Some(digits) =>
      assert head + (['.'] + digits + zone) == head + ['.'] + digits + zone;
      FractionStampIsIso(stamp.fields, digits, stamp.zone);
  }

  function ZoneOf(text: string, i: nat): Zone
    requires ZoneAt(text, i)
  {
    if text[i] in {'Z', 'z'} then Utc(text[i])
    else Offset(text[i], Digits(text, i + 1, 2).value, Digits(text, i + 4, 2).value)
  }

  lemma ZoneIsText(text: string, i: nat)
    requires ZoneAt(text, i)
    ensures ValidZone(ZoneOf(text, i)) && text[i..] == ZoneText(ZoneOf(text, i))
  {
    if text[i] !in {'Z', 'z'} {
      DigitsArePrinted(text, i + 1, 2);
      DigitsArePrinted(text, i + 4, 2);
      assert text[i..] == [text[i]] + text[i + 1..i + 3] + [text[i + 3]] + text[i + 4..i + 6];
    }
  }

  lemma {:induction false} DigitsUpTo(text: string, i: nat)
    requires i <= |text|
    ensures AllDigits(text[i..DigitsEnd(text, i)])
    decreases |text| - i
  {
    if i < |text| && IsDigit(text[i]) {
      DigitsUpTo(text, i + 1);
      var end := DigitsEnd(text, i);
      forall k | 0 <= k < end - i ensures IsDigit(text[i..end][k]) {
        if k > 0 {
          assert text[i..end][k] == text[i + 1..end][k - 1];
        }
      }
    }
  }

  lemma FractionIsText(text: string, end: nat)
    requires |text| >= 20 && text[19] == '.' && 20 <= end <= |text|
    ensures text == text[..19] + (FractionText(Some(text[20..end])) + text[end..])
  {
  }

  lemma IsoIsStamp(text: string) returns (stamp: Stamp)
    requires IsIso(text)
    ensures ValidStamp(stamp) && text == StampText(stamp)
  {
    var fields := ReadHead(text).value;
    HeadIsText(text);
    if At(text, 19, '.') {
      stamp := FractionStamp(text, fields);
    } else {
      ZoneIsText(text, 19);
      stamp := Stamp(fields, None, ZoneOf(text, 19));
      assert text == text[..19] + ("" + text[19..]);
    }
  }

  lemma FractionStamp(text: string, fields: Fields) returns (stamp: Stamp)
    requires |text| >= 20 && text[19] == '.' && text[..19] == HeadText(fields) && Fit(fields) && StrictFields(fields)
    requires DigitsEnd(text, 20) != 20 && ZoneAt(text, DigitsEnd(text, 20))
    ensures ValidStamp(stamp) && text == StampText(stamp)
  {
    var end := DigitsEnd(text, 20);
    DigitsUpTo(text, 20);
    ZoneIsText(text, end);
    FractionIsText(text, end);
    stamp := Stamp(fields, Some(text[20..end]), ZoneOf(text, end));
  }

  /** The check accepts exactly the `date-time` texts of section 5.6 of RFC 3339. */
  lemma IsoIsDateTime(text: string)
    ensures IsIso(text) <==> exists stamp :: ValidStamp(stamp) && text == StampText(stamp)
  {
    if IsIso(text) {
      var stamp := IsoIsStamp(text);
    }
    if stamp: Stamp :| ValidStamp(stamp) && text == StampText(stamp) {
      StampIsIso(stamp);
    }
  }

  // ---- parse_utc_seconds ----

  predicate LooseFields(f: Fields) {
    f.t == 'T' && 1 <= f.month <= 12 && 1 <= f.day <= 31 && f.hour <= 23 && f.minute <= 59 && f.second <= 59
  }

  function Seconds(f: Fields): int {
    DaysFromFields(f.year, f.month, f.day) * 86_400 + f.hour * 3_600 + f.minute * 60 + f.second
  }

  function StripUtc(text: string): Option<string> {
    if text != "" && text[|text| - 1] == 'Z' then Some(text[..|text| - 1])
    else if |text| >= 6 && text[|text| - 6..] == "+00:00" then Some(text[..|text| - 6])
    else None
  }

  /** The text without its fraction, when that one is a fraction. */
  function StripFraction(text: string): Option<string> {
    match SplitOnce(text, '.')
    case None => Some(text)
    case Some((whole, fraction)) => if fraction == "" || !AllDigits(fraction) then None else Some(whole)
  }

  function WholeSeconds(whole: string): Option<int> {
    if |whole| != 19 || ReadHead(whole).None? || !LooseFields(ReadHead(whole).value) then None
    else Some(Seconds(ReadHead(whole).value))
  }

  function ParseUtcSeconds(text: string): Option<int> {
    match StripUtc(text)
    case None => None
    case Some(text') =>
      match StripFraction(text')
      case None => None
      case Some(whole) => WholeSeconds(whole)
  }

  lemma HeadHasNoPoint(f: Fields)
    requires f.t == 'T'
    ensures '.' !in HeadText(f)
  {
  }

  /** A printed time with any fraction and a zero offset is read, and the fraction does not count. */
  lemma UtcReadsBack(f: Fields, fraction: Option<string>, suffix: string)
    requires Fit(f) && LooseFields(f) && ValidFraction(fraction) && suffix in {"Z", "+00:00"}
    ensures ParseUtcSeconds(HeadText(f) + FractionText(fraction) + suffix) == Some(Seconds(f))
  {
    var body := HeadText(f) + FractionText(fraction);
    var text := body + suffix;
    assert StripUtc(text) == Some(body) by {
      if suffix == "Z" {
        assert text[..|text| - 1] == body;
      } else {
        assert text[|text| - 6..] == "+00:00" && text[..|text| - 6] == body;
        assert text[|text| - 1] == suffix[5];
      }
    }
    HeadHasNoPoint(f);
    assert StripFraction(body) == Some(HeadText(f)) by {
      match fraction
      case None =>
        assert body == HeadText(f);
        SplitOnceMeans(body, '.');
      case Some(digits) =>
        assert body == HeadText(f) + ['.'] + digits;
        SplitsAt(HeadText(f), '.', digits);
    }
    HeadPlaces(f);
    HeadReadsBack(f, "");
    assert HeadText(f) + "" == HeadText(f);
  }

  /** The reader takes exactly such texts; it does not ask for the length of the month. */
  lemma ParseUtcMeans(text: string, v: int)
    ensures ParseUtcSeconds(text) == Some(v) <==>
      exists f, fraction, suffix {:trigger HeadText(f) + FractionText(fraction) + suffix} ::
        && Fit(f) && LooseFields(f) && ValidFraction(fraction) && suffix in {"Z", "+00:00"}
        && text == HeadText(f) + FractionText(fraction) + suffix && v == Seconds(f)
  {
    if ParseUtcSeconds(text) == Some(v) {
      UtcIsText(text);
    }
    if f: Fields, fraction: Option<string>, suffix: string {:trigger HeadText(f) + FractionText(fraction) + suffix} :|
      && Fit(f) && LooseFields(f) && ValidFraction(fraction) && suffix in {"Z", "+00:00"}
      && text == HeadText(f) + FractionText(fraction) + suffix && v == Seconds(f)
    {
      UtcReadsBack(f, fraction, suffix);
    }
  }

  lemma SuffixIsText(text: string) returns (suffix: string)
    requires StripUtc(text).Some?
    ensures suffix in {"Z", "+00:00"} && text == StripUtc(text).value + suffix
  {
    suffix := if text[|text| - 1] == 'Z' then "Z" else "+00:00";
  }

  lemma FractionIsTail(body: string) returns (fraction: Option<string>)
    requires StripFraction(body).Some?
    ensures ValidFraction(fraction) && body == StripFraction(body).value + FractionText(fraction)
  {
    SplitOnceMeans(body, '.');
    match SplitOnce(body, '.')
    case None => fraction := None;
    case Some((whole, digits)) =>
      fraction := Some(digits);
      assert whole + ['.'] + digits == whole + (['.'] + digits);
  }

  /** What the two strips remove. */
  lemma StripsAreText(text: string) returns (fraction: Option<string>, suffix: string)
    requires StripUtc(text).Some? && StripFraction(StripUtc(text).value).Some?
    ensures text == StripFraction(StripUtc(text).value).value + FractionText(fraction) + suffix
    ensures ValidFraction(fraction) && suffix in {"Z", "+00:00"}
  {
    var body := StripUtc(text).value;
    suffix := SuffixIsText(text);
    fraction := FractionIsTail(body);
  }

  lemma WholeIsText(whole: string)
    requires WholeSeconds(whole).Some?
    ensures ReadHead(whole).Some? && Fit(ReadHead(whole).value) && LooseFields(ReadHead(whole).value)
    ensures whole == HeadText(ReadHead(whole).value)
  {
    HeadIsText(whole);
    assert whole[..19] == whole;
  }

  lemma UtcIsText(text: string)
    requires ParseUtcSeconds(text).Some?
    ensures exists f, fraction, suffix {:trigger HeadText(f) + FractionText(fraction) + suffix} ::
      && Fit(f) && LooseFields(f) && ValidFraction(fraction) && suffix in {"Z", "+00:00"}
      && text == HeadText(f) + FractionText(fraction) + suffix && ParseUtcSeconds(text) == Some(Seconds(f))
  {
    var fraction, suffix := StripsAreText(text);
    var whole := StripFraction(StripUtc(text).value).value;
    WholeIsText(whole);
    assert text == HeadText(ReadHead(whole).value) + FractionText(fraction) + suffix;
  }

  // ---- both together ----

  lemma ZeroOffset()
    ensures ZoneText(Offset('+', 0, 0)) == "+00:00"
  {
    assert Padded(0, 1) == "0";
    assert Padded(0, 2) == "00";
  }

  predicate ZeroZone(zone: Zone) {
    zone == Utc('Z') || zone == Offset('+', 0, 0)
  }

  lemma StampIsRead(stamp: Stamp, suffix: string)
    requires Fit(stamp.fields) && LooseFields(stamp.fields) && ValidFraction(stamp.fraction)
    requires suffix == ZoneText(stamp.zone) && suffix in {"Z", "+00:00"}
    ensures ParseUtcSeconds(StampText(stamp)) == Some(Seconds(stamp.fields))
  {
    UtcReadsBack(stamp.fields, stamp.fraction, suffix);
    var head, fraction := HeadText(stamp.fields), FractionText(stamp.fraction);
    assert head + (fraction + suffix) == head + fraction + suffix;
  }

  /** What the reader takes, in its parts. */
  lemma Regroup(a: string, b: string, c: string)
    ensures a + b + c == a + (b + c)
  {
  }

  lemma ReadParts(text: string) returns (fraction: Option<string>, suffix: string)
    requires ParseUtcSeconds(text).Some?
    ensures ReadHead(text).Some? && Fit(ReadHead(text).value) && LooseFields(ReadHead(text).value)
    ensures ValidFraction(fraction) && suffix in {"Z", "+00:00"}
    ensures text == HeadText(ReadHead(text).value) + (FractionText(fraction) + suffix)
  {
    fraction, suffix := StripsAreText(text);
    var whole := StripFraction(StripUtc(text).value).value;
    WholeIsText(whole);
    var f := ReadHead(whole).value;
    Regroup(HeadText(f), FractionText(fraction), suffix);
    HeadReadsBack(f, FractionText(fraction) + suffix);
  }

  /** What the reader takes starts with loose fields and ends with one of its two suffixes. */
  lemma ReadTextEnds(text: string)
    requires ParseUtcSeconds(text).Some?
    ensures ReadHead(text).Some? && LooseFields(ReadHead(text).value)
    ensures |text| >= 6 && (text[|text| - 1] == 'Z' || text[|text| - 6..] == "+00:00")
  {
    var fraction, suffix := ReadParts(text);
    HeadPlaces(ReadHead(text).value);
    assert text == (HeadText(ReadHead(text).value) + FractionText(fraction)) + suffix;
  }

  lemma ZoneEnds(before: string, zone: Zone)
    requires ValidZone(zone) && |before| >= 6
    requires var text := before + ZoneText(zone);
      text[|text| - 1] == 'Z' || text[|text| - 6..] == "+00:00"
    ensures ZeroZone(zone)
  {
    var text := before + ZoneText(zone);
    match zone
    case Utc(z) => assert text[|text| - 1] == z;
    case Offset(sign, hour, minute) =>
      assert text[|text| - 6..] == ZoneText(zone);
      assert IsDigit(text[|text| - 1]);
      OffsetOf(sign, hour, minute);
  }

  lemma OffsetOf(sign: char, hour: nat, minute: nat)
    requires hour <= 23 && minute <= 59 && ZoneText(Offset(sign, hour, minute)) == "+00:00"
    ensures sign == '+' && hour == 0 && minute == 0
  {
    var text := ZoneText(Offset(sign, hour, minute));
    assert text[0] == sign && text[1..3] == Padded(hour, 2) && text[4..6] == Padded(minute, 2);
    Pow10s();
    PaddedRoundTrip(hour, 2);
    PaddedRoundTrip(minute, 2);
    ZeroOffset();
    assert Padded(0, 2) == "00" by {
      assert ZoneText(Offset('+', 0, 0))[1..3] == Padded(0, 2);
    }
    PaddedRoundTrip(0, 2);
  }

  /**
   * An accepted text is read exactly with `T`, a second below 60 and a zero offset; its fraction does not
   * count.
   */
  lemma AcceptedIsRead(stamp: Stamp)
    requires ValidStamp(stamp)
    ensures IsIso(StampText(stamp))
    ensures ParseUtcSeconds(StampText(stamp)).Some? <==>
      stamp.fields.t == 'T' && stamp.fields.second <= 59 && ZeroZone(stamp.zone)
    ensures ParseUtcSeconds(StampText(stamp)).Some? ==> ParseUtcSeconds(StampText(stamp)) == Some(Seconds(stamp.fields))
  {
    StampIsIso(stamp);
    ZeroOffset();
    if stamp.fields.t == 'T' && stamp.fields.second <= 59 && ZeroZone(stamp.zone) {
      StampIsRead(stamp, ZoneText(stamp.zone));
    } else if ParseUtcSeconds(StampText(stamp)).Some? {
      ReadStamp(stamp);
    }
  }

  lemma ReadStamp(stamp: Stamp)
    requires ValidStamp(stamp) && ParseUtcSeconds(StampText(stamp)).Some?
    ensures LooseFields(stamp.fields) && ZeroZone(stamp.zone)
  {
    var head := HeadText(stamp.fields);
    ReadTextEnds(StampText(stamp));
    HeadReadsBack(stamp.fields, FractionText(stamp.fraction) + ZoneText(stamp.zone));
    HeadPlaces(stamp.fields);
    assert StampText(stamp) == (head + FractionText(stamp.fraction)) + ZoneText(stamp.zone);
    ZoneEnds(head + FractionText(stamp.fraction), stamp.zone);
  }

  lemma ZoneOfSuffix(suffix: string) returns (zone: Zone)
    requires suffix in {"Z", "+00:00"}
    ensures ZoneText(zone) == suffix && ValidZone(zone)
  {
    ZeroOffset();
    zone := if suffix == "Z" then Utc('Z') else Offset('+', 0, 0);
  }

  /** What the reader takes, the check accepts exactly when the day is in its month. */
  lemma ReadIsAccepted(text: string)
    requires ParseUtcSeconds(text).Some?
    ensures ReadHead(text).Some?
    ensures var f := ReadHead(text).value; IsIso(text) <==> f.day <= MonthDays(f.year, f.month)
  {
    var fraction, suffix := ReadParts(text);
    var f := ReadHead(text).value;
    if f.day <= MonthDays(f.year, f.month) {
      var zone := ZoneOfSuffix(suffix);
      StampIsIso(Stamp(f, fraction, zone));
    }
  }

  /** The reader takes the thirtieth of February, which the check refuses. */
  lemma ReaderIgnoresMonthLength()
    ensures var f := Fields(2025, 2, 30, 'T', 0, 0, 0);
      ParseUtcSeconds(HeadText(f) + "" + "Z") == Some(Seconds(f)) && !IsIso(HeadText(f) + "Z")
  {
    var f := Fields(2025, 2, 30, 'T', 0, 0, 0);
    UtcReadsBack(f, None, "Z");
    HeadReadsBack(f, "Z");
  }

  // ---- printing a time ----

  function FieldsOf(t: nat): Fields {
    var d, s := DateOf(t / 86_400), t % 86_400;
    Fields(d.year, d.month, d.day, 'T', s / 3_600, s / 60 % 60, s % 60)
  }

  /** A time in the form of an offer: `YYYY-MM-DDTHH:MM:SSZ`. */
  function IsoText(t: nat): string {
    HeadText(FieldsOf(t)) + "Z"
  }

  lemma FieldsAreRight(t: nat)
    ensures var f := FieldsOf(t);
      LooseFields(f) && StrictFields(f) && Date(f.year, f.month, f.day) == DateOf(t / 86_400) && Seconds(f) == t
  {
    var d := DateOf(t / 86_400);
    DateOfIsRight(t / 86_400);
    BothCopiesAgree(d.year, d.month, d.day);
    TimeOfDay(t % 86_400);
  }

  lemma TimeOfDay(s: nat)
    requires s < 86_400
    ensures s / 3_600 <= 23 && s / 60 % 60 <= 59 && s % 60 <= 59
    ensures s / 3_600 * 3_600 + s / 60 % 60 * 60 + s % 60 == s
  {
    var m := s / 60;
    assert m / 60 == s / 3_600;
    assert m == m / 60 * 60 + m % 60;
  }

  /** Every time up to the end of year 9999 is printed and read back, by the reader and by the check. */
  lemma IsoRoundTrip(t: nat)
    requires DateOf(t / 86_400).year <= 9999
    ensures ParseUtcSeconds(IsoText(t)) == Some(t) && IsIso(IsoText(t))
  {
    FieldsAreRight(t);
    UtcReadsBack(FieldsOf(t), None, "Z");
    assert HeadText(FieldsOf(t)) + "" + "Z" == IsoText(t);
    var stamp := Stamp(FieldsOf(t), None, Utc('Z'));
    StampIsIso(stamp);
    assert "" + ZoneText(Utc('Z')) == "Z";
    assert StampText(stamp) == IsoText(t);
  }
}
