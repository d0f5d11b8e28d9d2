/** Decimal numbers, trimming and separators in texts. */
module Text {
  import opened Base

  predicate IsDigit(c: char) {
    '0' <= c <= '9'
  }

  predicate AllDigits(s: string) {
    forall i :: 0 <= i < |s| ==> IsDigit(s[i])
  }

  function DigitValue(c: char): (d: nat)
    requires IsDigit(c)
    ensures d < 10
  {
    c as int - '0' as int
  }

  function DigitChar(d: nat): (c: char)
    requires d < 10
    ensures IsDigit(c) && DigitValue(c) == d
  {
    ('0' as int + d) as char
  }

  /** The number that a digit text stands for. */
  function DecimalValue(s: string): nat
    requires AllDigits(s)
  {
    if s == [] then 0 else DecimalValue(s[..|s| - 1]) * 10 + DigitValue(s[|s| - 1])
  }

  /** The plain decimal text of a number, without leading zeros. */
  function Decimal(n: nat): string {
    if n < 10 then [DigitChar(n)] else Decimal(n / 10) + [DigitChar(n % 10)]
  }

  lemma {:induction false} DecimalRoundTrip(n: nat)
    ensures AllDigits(Decimal(n)) && |Decimal(n)| > 0
    ensures DecimalValue(Decimal(n)) == n
  {
    if n < 10 {
      assert Decimal(n)[..0] == [];
    } else {
      DecimalRoundTrip(n / 10);
      var s := Decimal(n);
      assert s[..|s| - 1] == Decimal(n / 10);
    }
  }

  lemma DecimalInjective(m: nat, n: nat)
    requires Decimal(m) == Decimal(n)
    ensures m == n
  {
    DecimalRoundTrip(m);
    DecimalRoundTrip(n);
  }

  /** `n` as exactly `width` digits; the source's `{:02}` and `{:04}` for numbers that fit. */
  function Padded(n: nat, width: nat): (s: string)
    ensures |s| == width && AllDigits(s)
  {
    if width == 0 then [] else Padded(n / 10, width - 1) + [DigitChar(n % 10)]
  }

  function Pow10(k: nat): nat {
    if k == 0 then 1 else 10 * Pow10(k - 1)
  }

  lemma {:induction false} PaddedRoundTrip(n: nat, width: nat)
    requires n < Pow10(width)
    ensures DecimalValue(Padded(n, width)) == n
  {
    if width > 0 {
      PaddedRoundTrip(n / 10, width - 1);
      var s := Padded(n, width);
      assert s[..|s| - 1] == Padded(n / 10, width - 1);
    }
  }

  lemma QuotientAndDigit(n: nat, d: nat)
    requires d < 10
    ensures (10 * n + d) / 10 == n && (10 * n + d) % 10 == d
  {
  }

  /** A digit text is its own number, padded to its length. */
  lemma {:induction false} DigitsArePadded(s: string)
    requires AllDigits(s)
    ensures Padded(DecimalValue(s), |s|) == s && DecimalValue(s) < Pow10(|s|)
  {
    if s != [] {
      var init, last := s[..|s| - 1], DigitValue(s[|s| - 1]);
      DigitsArePadded(init);
      assert s == init + [DigitChar(last)];
      QuotientAndDigit(DecimalValue(init), last);
      assert Padded(DecimalValue(s), |s|) == Padded(DecimalValue(init), |init|) + [DigitChar(last)];
    }
  }

  /** `str::split_once`: the text before the first `sep` and the text after it. */
  function SplitOnce(s: string, sep: char): (r: Option<(string, string)>)
    ensures r.Some? ==> |r.value.0| + |r.value.1| < |s|
  {
    if s == [] then None
    else if s[0] == sep then Some(([], s[1..]))
    else match SplitOnce(s[1..], sep)
    case None => None
    case Some((before, after)) => Some(([s[0]] + before, after))
  }

  lemma {:induction false} SplitOnceMeans(s: string, sep: char)
    ensures match SplitOnce(s, sep)
      case None => sep !in s
      case Some((before, after)) => s == before + [sep] + after && sep !in before
  {
    if s != [] && s[0] != sep {
      SplitOnceMeans(s[1..], sep);
      assert s == [s[0]] + s[1..];
    }
  }

  /** A text that is put together around its first separator splits there. */
  lemma SplitsAt(before: string, sep: char, after: string)
    requires sep !in before
    ensures SplitOnce(before + [sep] + after, sep) == Some((before, after))
  {
    var s := before + [sep] + after;
    assert s[|before|] == sep;
    SplitOnceMeans(s, sep);
    if SplitOnce(s, sep).Some? {
      CutOnce(before, after, SplitOnce(s, sep).value.0, SplitOnce(s, sep).value.1, sep);
    }
  }

  /** `str::split`: the parts between all separators. */
  function SplitAll(s: string, sep: char): (parts: seq<string>)
    ensures |parts| >= 1
    decreases |s|
  {
    match SplitOnce(s, sep)
    case None => [s]
    case Some((before, after)) => [before] + SplitAll(after, sep)
  }

  lemma SplitAllStep(before: string, sep: char, after: string)
    requires sep !in before
    ensures SplitAll(before + [sep] + after, sep) == [before] + SplitAll(after, sep)
  {
    SplitsAt(before, sep, after);
  }

  lemma SplitAllOnce(s: string, sep: char)
    requires sep !in s
    ensures SplitAll(s, sep) == [s]
  {
    SplitOnceMeans(s, sep);
  }

  /** The parts of a text with the separator between them. */
  function Rejoined(parts: seq<string>, sep: char): string
    requires parts != []
  {
    if |parts| == 1 then parts[0] else parts[0] + [sep] + Rejoined(parts[1..], sep)
  }

  lemma {:induction false} SplitJoins(s: string, sep: char)
    ensures Rejoined(SplitAll(s, sep), sep) == s
    decreases |s|
  {
    SplitOnceMeans(s, sep);
    match SplitOnce(s, sep)
    case None =>
    case Some((before, after)) =>
      SplitJoins(after, sep);
      assert SplitAll(s, sep)[1..] == SplitAll(after, sep);
  }

  lemma {:induction false} JoinedSplits(parts: seq<string>, sep: char)
    requires parts != [] && forall i :: 0 <= i < |parts| ==> sep !in parts[i]
    ensures SplitAll(Rejoined(parts, sep), sep) == parts
    decreases |parts|
  {
    if |parts| == 1 {
      SplitAllOnce(parts[0], sep);
    } else {
      JoinedSplits(parts[1..], sep);
      SplitAllStep(parts[0], sep, Rejoined(parts[1..], sep));
    }
  }

  /** A text is cut in one way at the first separator. */
  lemma CutOnce(a: string, b: string, c: string, d: string, sep: char)
    requires sep !in a && sep !in c
    requires a + [sep] + b == c + [sep] + d
    ensures a == c && b == d
  {
    var s := a + [sep] + b;
    assert s[|a|] == sep && s[|c|] == sep;
    assert |a| == |c|;
    assert s[..|a|] == a && s[..|c|] == c;
    assert s[|a| + 1..] == b && s[|c| + 1..] == d;
  }

  // ---- trimming and small numbers ----

  /** The Unicode white space that `str::trim` removes. */
  predicate IsSpace(c: char) {
    || '\U{0009}' <= c <= '\U{000D}' || c == ' ' || c == '\U{0085}' || c == '\U{00A0}'
    || c == '\U{1680}' || '\U{2000}' <= c <= '\U{200A}' || c == '\U{2028}' || c == '\U{2029}'
    || c == '\U{202F}' || c == '\U{205F}' || c == '\U{3000}'
  }

  function TrimStart(s: string): string {
    if s != [] && IsSpace(s[0]) then TrimStart(s[1..]) else s
  }

  function TrimEnd(s: string): string {
    if s != [] && IsSpace(s[|s| - 1]) then TrimEnd(s[..|s| - 1]) else s
  }

  function Trim(s: string): string {
    TrimEnd(TrimStart(s))
  }

  /** A text with no white space at its ends stays as it is. */
  lemma TrimKeeps(s: string)
    requires s == [] || (!IsSpace(s[0]) && !IsSpace(s[|s| - 1]))
    ensures Trim(s) == s
  {
  }

  predicate AllSpace(s: string) {
    forall i :: 0 <= i < |s| ==> IsSpace(s[i])
  }

  lemma {:induction false} TrimStartDrops(space: string, s: string)
    requires AllSpace(space)
    ensures TrimStart(space + s) == TrimStart(s)
  {
    if space == [] {
      assert space + s == s;
    } else {
      assert (space + s)[1..] == space[1..] + s;
      TrimStartDrops(space[1..], s);
    }
  }

  lemma {:induction false} TrimEndDrops(s: string, space: string)
    requires AllSpace(space)
    ensures TrimEnd(s + space) == TrimEnd(s)
  {
    if space == [] {
      assert s + space == s;
    } else {
      var init := space[..|space| - 1];
      assert (s + space)[..|s + space| - 1] == s + init;
      TrimEndDrops(s, init);
    }
  }

  /** White space around a text goes. */
  lemma TrimsSpace(before: string, s: string, after: string)
    requires AllSpace(before) && AllSpace(after) && s != [] && !IsSpace(s[0]) && !IsSpace(s[|s| - 1])
    ensures Trim(before + s + after) == s
  {
    assert before + s + after == before + (s + after);
    TrimStartDrops(before, s + after);
    assert TrimStart(s + after) == s + after;
    TrimEndDrops(s, after);
  }

  predicate NoSpace(s: string) {
    forall i :: 0 <= i < |s| ==> !IsSpace(s[i])
  }

  /** The longest start of a text without white space. */
  function FirstWord(s: string): (w: string)
    ensures |w| <= |s|
    ensures s != [] && !IsSpace(s[0]) ==> |w| > 0
  {
    if s == [] || IsSpace(s[0]) then [] else [s[0]] + FirstWord(s[1..])
  }

  lemma {:induction false} TrimStartShrinks(s: string)
    ensures |TrimStart(s)| <= |s| && (TrimStart(s) != [] ==> !IsSpace(TrimStart(s)[0]))
  {
    if s != [] && IsSpace(s[0]) {
      TrimStartShrinks(s[1..]);
    }
  }

  /** `str::split_whitespace`. */
  function Words(s: string): seq<string>
    decreases |s|
  {
    TrimStartShrinks(s);
    var rest := TrimStart(s);
    if rest == [] then [] else [FirstWord(rest)] + Words(rest[|FirstWord(rest)|..])
  }

  lemma {:induction false} FirstWordEnds(word: string, rest: string)
    requires NoSpace(word) && (rest == [] || IsSpace(rest[0]))
    ensures FirstWord(word + rest) == word
  {
    if word == [] {
      assert word + rest == rest;
    } else {
      assert (word + rest)[1..] == word[1..] + rest;
      FirstWordEnds(word[1..], rest);
    }
  }

  /** A word and a space in front of a text are its first word. */
  lemma WordsStep(word: string, rest: string)
    requires word != [] && NoSpace(word)
    ensures Words(word + [' '] + rest) == [word] + Words([' '] + rest)
    ensures Words([' '] + rest) == Words(rest)
  {
    var s := word + [' '] + rest;
    assert TrimStart(s) == s;
    assert s == word + ([' '] + rest);
    FirstWordEnds(word, [' '] + rest);
    assert s[|word|..] == [' '] + rest;
    assert TrimStart([' '] + rest) == TrimStart(rest) by {
      assert ([' '] + rest)[1..] == rest;
    }
  }

  lemma LastWord(word: string)
    requires word != [] && NoSpace(word)
    ensures Words(word) == [word]
  {
    FirstWordEnds(word, []);
    assert word + [] == word;
    assert word[|word|..] == [];
    assert Words([]) == [];
  }

  /** `str::parse` of an unsigned number: an optional plus sign and at least one digit, at most `max`. */
  function ParseUnsigned(s: string, max: nat): Option<nat> {
    var digits := if s != [] && s[0] == '+' then s[1..] else s;
    if digits == [] || !AllDigits(digits) || DecimalValue(digits) > max then None
    else Some(DecimalValue(digits))
  }

  /** `str::parse::<i64>`: an optional sign and at least one digit. */
  function ParseI64(s: string): Option<int> {
    if s != [] && s[0] == '-' then
      var digits := s[1..];
      if digits == [] || !AllDigits(digits) || DecimalValue(digits) > -I64_MIN then None
      else
        var n: int := 0 - DecimalValue(digits);
        Some(n)
    else match ParseUnsigned(s, I64_MAX)
    case None => None
    case Some(n) => Some(n)
  }

  /** Printed digits are read as their number. */
  lemma PaddedParses(n: nat, width: nat, max: nat)
    requires width > 0 && n < Pow10(width) && n <= max
    ensures ParseUnsigned(Padded(n, width), max) == Some(n)
    ensures n <= I64_MAX ==> ParseI64(Padded(n, width)) == Some(n)
    ensures NoSpace(Padded(n, width)) && ':' !in Padded(n, width)
  {
    PaddedRoundTrip(n, width);
    var s := Padded(n, width);
    assert IsDigit(s[0]);
  }

  /** `str::parse::<u8>`. */
  function ParseU8(s: string): Option<nat> {
    ParseUnsigned(s, 255)
  }

  /** What the pairing window shows for a check code, typed back, is that code. */
  lemma ShownCodeReadsBack(code: nat)
    requires code < 100
    ensures ParseU8(Trim(Padded(code, 2))) == Some(code)
  {
    var s := Padded(code, 2);
    PaddedRoundTrip(code, 2) by {
      assert Pow10(2) == 10 * Pow10(1) == 100;
    }
    assert IsDigit(s[0]) && IsDigit(s[1]);
    assert TrimStart(s) == s && TrimEnd(s) == s;
  }
}
