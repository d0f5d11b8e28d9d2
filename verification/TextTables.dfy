/** What the small text functions mean: digits, numbers, white space and the code that a user types. */
module TextTables {
  import opened Base
  import opened HttpTexts
  import opened Text

  // ---- digits and numbers ----

  const TEN_DIGITS: string := "0123456789"

  lemma DigitTable(d: nat)
    requires d < 10
    ensures IsDigit(TEN_DIGITS[d]) && DigitValue(TEN_DIGITS[d]) == d && DigitChar(d) == TEN_DIGITS[d]
  {
  }

  lemma OnlyTenDigits(c: char)
    ensures IsDigit(c) <==> c in TEN_DIGITS
  {
    if IsDigit(c) {
      DigitTable(DigitValue(c));
      assert TEN_DIGITS[DigitValue(c)] == c;
    }
  }

  lemma PowerTable(k: nat)
    ensures Pow10(0) == 1 && Pow10(1) == 10 && Pow10(2) == 100 && Pow10(3) == 1_000 && Pow10(4) == 10_000
    ensures Pow10(k + 1) == 10 * Pow10(k)
  {
    assert Pow10(3) == 10 * Pow10(2);
  }

  lemma LastDigit(s: string, c: char)
    requires AllDigits(s) && IsDigit(c)
    ensures AllDigits(s + [c]) && DecimalValue(s + [c]) == DecimalValue(s) * 10 + DigitValue(c)
  {
    assert (s + [c])[..|s|] == s;
  }

  lemma Shifted(a: nat, power: nat, b: nat, d: nat)
    ensures (a * power + b) * 10 + d == a * (10 * power) + (b * 10 + d)
  {
  }

  /** Decimal places: what stands in front counts ten times for each digit behind it. */
  lemma {:induction false} ValueOfTwo(a: string, b: string)
    requires AllDigits(a) && AllDigits(b)
    ensures AllDigits(a + b) && DecimalValue(a + b) == DecimalValue(a) * Pow10(|b|) + DecimalValue(b)
    decreases |b|
  {
    if b == [] {
      assert a + b == a;
    } else {
      var init, last := b[..|b| - 1], b[|b| - 1];
      ValueOfTwo(a, init);
      LastDigit(a + init, last);
      LastDigit(init, last);
      assert init + [last] == b && a + init + [last] == a + b;
      PowerTable(|init|);
      Shifted(DecimalValue(a), Pow10(|init|), DecimalValue(init), DigitValue(last));
    }
  }

  lemma ValueOfDigit(d: nat)
    requires d < 10
    ensures DecimalValue([TEN_DIGITS[d]]) == d && DecimalValue("") == 0
  {
    DigitTable(d);
    assert [TEN_DIGITS[d]][..0] == "";
  }

  /** The printed number has no leading zero, so it is the shortest text of its value. */
  lemma {:induction false} PrintedNumber(n: nat)
    ensures AllDigits(Decimal(n)) && DecimalValue(Decimal(n)) == n && Decimal(n) != ""
    ensures |Decimal(n)| > 1 ==> Decimal(n)[0] != '0'
  {
    DecimalRoundTrip(n);
    if n < 10 {
    } else {
      PrintedNumber(n / 10);
      if n < 100 {
        assert Decimal(n / 10) == [DigitChar(n / 10)];
        assert DigitChar(n / 10) != '0' by {
          assert n / 10 >= 1;
        }
      } else {
        assert n / 10 >= 10;
        assert |Decimal(n / 10)| > 1;
      }
    }
  }

  // ---- white space ----

  /** The white space characters of Unicode, by their numbers. */
  const SPACES: set<int> :=
    {9, 10, 11, 12, 13, 32, 133, 160, 5760, 8192, 8193, 8194, 8195, 8196, 8197, 8198, 8199, 8200, 8201, 8202,
     8232, 8233, 8239, 8287, 12288}

  lemma SpaceTable(c: char)
    ensures IsSpace(c) <==> c as int in SPACES
  {
  }

  lemma {:induction false} TrimEndMeans(s: string) returns (after: string)
    ensures s == TrimEnd(s) + after && AllSpace(after)
    ensures TrimEnd(s) == "" || !IsSpace(TrimEnd(s)[|TrimEnd(s)| - 1])
    decreases |s|
  {
    after := "";
    if s != "" && IsSpace(s[|s| - 1]) {
      var init := s[..|s| - 1];
      after := TrimEndMeans(init);
      assert s == init + [s[|s| - 1]];
      assert TrimEnd(s) + (after + [s[|s| - 1]]) == (TrimEnd(s) + after) + [s[|s| - 1]];
      after := after + [s[|s| - 1]];
    } else {
      assert s == s + "";
    }
  }

  /** `t` is `s` without the white space around it. */
  ghost predicate Trimmed(s: string, t: string) {
    && (exists before, after :: AllSpace(before) && AllSpace(after) && s == before + t + after)
    && (t == "" || (!IsSpace(t[0]) && !IsSpace(t[|t| - 1])))
  }

  lemma TrimMeans(s: string, t: string)
    ensures Trim(s) == t <==> Trimmed(s, t)
  {
    var before := TrimStartMeans(s);
    var rest := TrimStart(s);
    var after := TrimEndMeans(rest);
    TrimStartShrinks(s);
    assert s == before + Trim(s) + after;
    if Trim(s) != "" {
      assert Trim(s)[0] == rest[0];
    }
    assert Trimmed(s, Trim(s));
    if Trimmed(s, t) {
      var b, a :| AllSpace(b) && AllSpace(a) && s == b + t + a;
      if t == "" {
        assert s == b + a && AllSpace(s);
        NothingLeft(s);
      } else {
        TrimsSpace(b, t, a);
      }
    }
  }

  // ---- the typed code ----

  /** White space, an optional plus sign, and digits of the value `n`. */
  ghost predicate TypedAs(typed: string, n: nat) {
    exists t :: Trimmed(typed, t) && Plain(t, n)
  }

  /** What a user may type for a code: any zeros in front, one plus sign, white space around; nothing else. */
  lemma TypedCodeMeans(typed: string, n: nat)
    ensures ParseU8(Trim(typed)) == Some(n) <==> TypedAs(typed, n) && n <= 255
  {
    TrimMeans(typed, Trim(typed));
    ParseUnsignedMeans(Trim(typed), 255, n);
    if TypedAs(typed, n) {
      var t :| Trimmed(typed, t) && Plain(t, n);
      TrimMeans(typed, t);
    }
  }
}
