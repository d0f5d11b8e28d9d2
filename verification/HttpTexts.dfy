/** The texts that the reader of HTTP dates takes, without its steps. */
module HttpTexts {
  import opened Base
  import opened HttpDates
  import opened Text

  // ---- words with white space between and around them ----

  ghost predicate Spaced(s: string, words: seq<string>)
    decreases |words|
  {
    if words == [] then AllSpace(s)
    else exists before, rest :: StartsWith(s, before, words[0], rest) && Spaced(rest, words[1..])
  }

  predicate StartsWith(s: string, before: string, word: string, rest: string) {
    s == before + word + rest && AllSpace(before) && IsWord(word) && (rest == "" || IsSpace(rest[0]))
  }

  lemma {:induction false} TrimStartMeans(s: string) returns (before: string)
    ensures s == before + TrimStart(s) && AllSpace(before)
  {
    if s != [] && IsSpace(s[0]) {
      before := TrimStartMeans(s[1..]);
      assert s == [s[0]] + s[1..];
      before := [s[0]] + before;
    } else {
      before := [];
    }
  }

  lemma {:induction false} FirstWordMeans(s: string)
    ensures FirstWord(s) <= s && NoSpace(FirstWord(s))
    ensures |FirstWord(s)| < |s| ==> IsSpace(s[|FirstWord(s)|])
  {
    if s != [] && !IsSpace(s[0]) {
      FirstWordMeans(s[1..]);
    }
  }

  lemma {:induction false} NothingLeft(s: string)
    ensures TrimStart(s) == [] <==> AllSpace(s)
  {
    if s != [] && IsSpace(s[0]) {
      NothingLeft(s[1..]);
      assert s == [s[0]] + s[1..];
    }
  }

  /** A text that starts with white space and a word has that word first. */
  lemma FirstOf(s: string, before: string, word: string, rest: string)
    requires StartsWith(s, before, word, rest)
    ensures TrimStart(s) == word + rest && FirstWord(TrimStart(s)) == word
    ensures Words(s) == [word] + Words(rest)
  {
    assert s == before + (word + rest);
    TrimStartDrops(before, word + rest);
    assert TrimStart(word + rest) == word + rest;
    FirstWordEnds(word, rest);
    assert (word + rest)[|word|..] == rest;
  }

  lemma NotOnlySpace(s: string, before: string, word: string, rest: string)
    requires AllSpace(s)
    ensures !StartsWith(s, before, word, rest)
  {
    if s == before + word + rest && word != "" {
      assert s[|before|] == word[0];
    }
  }

  lemma FirstIsWord(t: string)
    requires t != [] && !IsSpace(t[0])
    ensures FirstWord(t) <= t && IsWord(FirstWord(t))
    ensures |FirstWord(t)| < |t| ==> IsSpace(t[|FirstWord(t)|])
  {
    FirstWordMeans(t);
  }

  lemma StartsAt(before: string, t: string, word: string)
    requires AllSpace(before) && IsWord(word) && word <= t && (|word| < |t| ==> IsSpace(t[|word|]))
    ensures StartsWith(before + t, before, word, t[|word|..])
  {
    assert t == word + t[|word|..] && before + t == before + word + t[|word|..];
  }

  lemma SplitFirst(s: string) returns (before: string, word: string, rest: string)
    requires !AllSpace(s)
    ensures StartsWith(s, before, word, rest)
  {
    NothingLeft(s);
    before := TrimStartMeans(s);
    TrimStartShrinks(s);
    var t := TrimStart(s);
    FirstIsWord(t);
    word, rest := FirstWord(t), t[|FirstWord(t)|..];
    StartsAt(before, t, word);
  }

  /** A text splits into words exactly when it is these words with white space between and around them. */
  lemma {:induction false} WordsMean(s: string, words: seq<string>)
    ensures Words(s) == words <==> Spaced(s, words)
    decreases |s| + |words|
  {
    NothingLeft(s);
    if AllSpace(s) {
      if words != [] {
        forall before, rest ensures !StartsWith(s, before, words[0], rest) {
          NotOnlySpace(s, before, words[0], rest);
        }
      }
    } else {
      var before, word, rest := SplitFirst(s);
      FirstOf(s, before, word, rest);
      if words != [] {
        WordsMean(rest, words[1..]);
        assert words == [words[0]] + words[1..];
        forall b, r | StartsWith(s, b, words[0], r) ensures words[0] == word && r == rest {
          FirstOf(s, b, words[0], r);
        }
      }
    }
  }

  // ---- numbers ----

  ghost predicate Plain(text: string, n: int) {
    exists digits :: digits != "" && AllDigits(digits) && (text == digits || text == "+" + digits) && n == DecimalValue(digits)
  }

  ghost predicate Signed(text: string, n: int) {
    Plain(text, n) ||
    exists digits :: digits != "" && AllDigits(digits) && text == "-" + digits && n == 0 - DecimalValue(digits)
  }

  lemma PlainIs(text: string, digits: string)
    requires digits != "" && AllDigits(digits) && (text == digits || text == "+" + digits)
    ensures Plain(text, DecimalValue(digits)) && text[0] != '-'
    ensures (if text[0] == '+' then text[1..] else text) == digits
  {
    assert IsDigit(digits[0]);
  }

  lemma ParseUnsignedMeans(text: string, max: nat, n: nat)
    ensures ParseUnsigned(text, max) == Some(n) <==> Plain(text, n) && n <= max
  {
    if ParseUnsigned(text, max) == Some(n) {
      PlainIs(text, if text[0] == '+' then text[1..] else text);
    }
    if Plain(text, n) {
      var digits :| digits != "" && AllDigits(digits) && (text == digits || text == "+" + digits) && n == DecimalValue(digits);
      PlainIs(text, digits);
    }
  }

  lemma ParseI64Means(text: string, n: int)
    ensures ParseI64(text) == Some(n) <==> Signed(text, n) && InI64(n)
  {
    if text != "" && text[0] == '-' {
      assert text == "-" + text[1..];
      forall digits | digits != "" && AllDigits(digits) && (text == digits || text == "+" + digits) ensures false {
        PlainIs(text, digits);
      }
    } else if n >= 0 {
      ParseUnsignedMeans(text, I64_MAX, n);
    }
  }

  // ---- the clock ----

  ghost predicate ClockIs(text: string, clock: Clock) {
    exists a, b, c ::
      text == a + [':'] + (b + [':'] + c) && Signed(a, clock.hour) && Signed(b, clock.minute) && Signed(c, clock.second)
  }

  lemma SignedHasNoColon(text: string, n: int)
    requires Signed(text, n)
    ensures ':' !in text
  {
  }

  /** A text of three parts is these parts with the separator between them. */
  lemma ThreeParts(text: string)
    requires |SplitAll(text, ':')| == 3
    ensures var p := SplitAll(text, ':'); text == p[0] + [':'] + (p[1] + [':'] + p[2])
  {
    SplitOnceMeans(text, ':');
    var rest := SplitOnce(text, ':').value.1;
    assert SplitAll(text, ':')[1..] == SplitAll(rest, ':');
    SplitOnceMeans(rest, ':');
    var last := SplitOnce(rest, ':').value.1;
    assert SplitAll(rest, ':')[1..] == SplitAll(last, ':');
    assert SplitOnce(last, ':').None?;
  }

  lemma ParseClockMeans(text: string, clock: Clock)
    ensures ParseClock(text) == Some(clock) <==> ClockIs(text, clock) && ValidClock(clock)
  {
    var p := SplitAll(text, ':');
    if ParseClock(text) == Some(clock) {
      ThreeParts(text);
      ParseI64Means(p[0], clock.hour);
      ParseI64Means(p[1], clock.minute);
      ParseI64Means(p[2], clock.second);
    }
    if ClockIs(text, clock) && ValidClock(clock) {
      var a, b, c :| text == a + [':'] + (b + [':'] + c)
        && Signed(a, clock.hour) && Signed(b, clock.minute) && Signed(c, clock.second);
      SignedHasNoColon(a, clock.hour);
      SignedHasNoColon(b, clock.minute);
      SignedHasNoColon(c, clock.second);
      ClockParts(a, b, c);
      ParseI64Means(a, clock.hour);
      ParseI64Means(b, clock.minute);
      ParseI64Means(c, clock.second);
    }
  }

  // ---- the date ----

  lemma {:induction false} PositionMeans(names: seq<string>, name: string, i: nat)
    ensures Position(names, name, i).Some? ==> Position(names, name, i).value < |names| && names[Position(names, name, i).value] == name
    decreases |names| - i
  {
    if i < |names| && names[i] != name {
      PositionMeans(names, name, i + 1);
    }
  }

  datatype DateTexts = DateTexts(weekday: string, day: string, month: nat, year: string, clock: string)

  function WordsOf(d: DateTexts): seq<string>
    requires d.month < 12
  {
    [d.weekday, d.day, MONTHS[d.month], d.year, d.clock, "GMT"]
  }

  /** The texts of a date stand for these numbers. */
  ghost predicate StandsFor(d: DateTexts, year: int, day: nat, clock: Clock) {
    && d.month < 12
    && Plain(d.day, day) && 1 <= day <= 31 && Signed(d.year, year) && InI64(year) && ClockIs(d.clock, clock) && ValidClock(clock)
  }

  lemma PartsMean(dayText: string, yearText: string, clockText: string, year: int, day: nat, clock: Clock)
    requires day <= 31
    ensures ParseUnsigned(dayText, U32_MAX) == Some(day) && ParseI64(yearText) == Some(year) && ParseClock(clockText) == Some(clock)
      <==> Plain(dayText, day) && Signed(yearText, year) && InI64(year) && ClockIs(clockText, clock) && ValidClock(clock)
  {
    ParseUnsignedMeans(dayText, U32_MAX, day);
    ParseI64Means(yearText, year);
    ParseClockMeans(clockText, clock);
  }

  lemma TextsRead(d: DateTexts, year: int, day: nat, clock: Clock)
    requires StandsFor(d, year, day, clock)
    ensures ParseDateWords(WordsOf(d)) == Epoch(year, d.month + 1, day, clock)
  {
    var words := WordsOf(d);
    PartsMean(d.day, d.year, d.clock, year, day, clock);
    assert words[1] == d.day && words[3] == d.year && words[4] == d.clock;
    assert Position(MONTHS, words[2], 0) == Some(d.month) by {
      PositionFrom(d.month, 0);
    }
    DateWordsRead(words, year, d.month + 1, day, clock);
  }

  /** The words of a date, each one read. */
  predicate AllParse(words: seq<string>) {
    && |words| == 6 && words[5] == "GMT"
    && ParseUnsigned(words[1], U32_MAX).Some? && 1 <= ParseUnsigned(words[1], U32_MAX).value <= 31
    && Position(MONTHS, words[2], 0).Some? && ParseI64(words[3]).Some? && ParseClock(words[4]).Some?
  }

  lemma ReadWordsParse(words: seq<string>)
    requires ParseDateWords(words).Some?
    ensures AllParse(words)
  {
  }

  lemma ReadTexts(words: seq<string>) returns (d: DateTexts, year: int, day: nat, clock: Clock)
    requires AllParse(words)
    ensures StandsFor(d, year, day, clock) && words == WordsOf(d)
  {
    day := ParseUnsigned(words[1], U32_MAX).value;
    year := ParseI64(words[3]).value;
    clock := ParseClock(words[4]).value;
    var month := Position(MONTHS, words[2], 0).value;
    assert month < 12 && words[2] == MONTHS[month] by {
      PositionMeans(MONTHS, words[2], 0);
    }
    d := DateTexts(words[0], words[1], month, words[3], words[4]);
    PartsMean(words[1], words[3], words[4], year, day, clock);
    assert words == [words[0], words[1], words[2], words[3], words[4], words[5]];
  }

  /** A text of six words that stand for a date at `v` seconds. */
  ghost predicate DateText(value: string, v: nat, d: DateTexts, year: int, day: nat, clock: Clock) {
    StandsFor(d, year, day, clock) && Spaced(value, WordsOf(d)) && Epoch(year, d.month + 1, day, clock) == Some(v)
  }

  lemma DateTextIsRead(value: string, v: nat, d: DateTexts, year: int, day: nat, clock: Clock)
    requires DateText(value, v, d, year, day, clock)
    ensures ParseHttpDate(value) == Some(v)
  {
    WordsMean(value, WordsOf(d));
    TextsRead(d, year, day, clock);
  }

  lemma ReadIsDateText(value: string, v: nat) returns (d: DateTexts, year: int, day: nat, clock: Clock)
    requires ParseHttpDate(value) == Some(v)
    ensures DateText(value, v, d, year, day, clock)
  {
    ReadWordsParse(Words(value));
    d, year, day, clock := ReadTexts(Words(value));
    WordsMean(value, WordsOf(d));
    TextsRead(d, year, day, clock);
  }

  /**
   * The reader takes exactly the texts of six words with white space between and around them: any word, a day
   * from 1 to 31 with an optional plus sign, the name of a month, a year that fits 64 bits with an optional
   * sign, a clock of three such numbers in range, and `GMT`. It gives their seconds, and nothing for a time
   * before 1970.
   */
  lemma ParseHttpDateMeans(value: string, v: nat)
    ensures ParseHttpDate(value) == Some(v) <==> exists d, year, day, clock :: DateText(value, v, d, year, day, clock)
  {
    if ParseHttpDate(value) == Some(v) {
      var d, year, day, clock := ReadIsDateText(value, v);
    }
    if d: DateTexts, year: int, day: nat, clock: Clock :| DateText(value, v, d, year, day, clock) {
      DateTextIsRead(value, v, d, year, day, clock);
    }
  }
}
