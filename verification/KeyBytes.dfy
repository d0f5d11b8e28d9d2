/** The 32 bytes that a key text stands for, and the order of the older client by these bytes. */
module KeyBytes {
  import opened Orders
  import W = Wire

  /** The number that digits stand for, the first one the highest. */
  function Number(base: nat, digits: seq<nat>): nat {
    if digits == [] then 0 else Number(base, digits[..|digits| - 1]) * base + digits[|digits| - 1]
  }

  function Power(base: nat, n: nat): nat {
    if n == 0 then 1 else Power(base, n - 1) * base
  }

  ghost predicate Below(digits: seq<nat>, base: nat) {
    forall i :: 0 <= i < |digits| ==> digits[i] < base
  }

  lemma {:induction false} NumberIsBounded(base: nat, digits: seq<nat>)
    requires Below(digits, base)
    ensures Number(base, digits) < Power(base, |digits|)
  {
    if digits != [] {
      var init, last := digits[..|digits| - 1], digits[|digits| - 1];
      NumberIsBounded(base, init);
      DigitFits(Number(base, init), Power(base, |init|), base, last);
    }
  }

  lemma Times(a: nat, b: nat, c: nat)
    requires a <= b
    ensures a * c <= b * c
  {
  }

  lemma DigitFits(n: nat, bound: nat, base: nat, digit: nat)
    requires n < bound && digit < base
    ensures n * base + digit < bound * base
  {
    Times(n + 1, bound, base);
    assert (n + 1) * base == n * base + base;
  }

  /** A higher number stays higher whatever digits follow; a digit decides between equal ones. */
  lemma OneMoreDigit(m: nat, n: nat, base: nat, c: nat, d: nat)
    requires c < base && d < base
    ensures m * base + c < n * base + d <==> m < n || (m == n && c < d)
    ensures m * base + c == n * base + d <==> m == n && c == d
  {
    if m < n {
      DigitFits(m, n, base, c);
    } else if n < m {
      DigitFits(n, m, base, d);
    }
  }

  /** The digits `a` stand before `b`: at the first place where they differ. */
  ghost predicate DigitsBefore(a: seq<nat>, b: seq<nat>) {
    exists k :: 0 <= k < |a| && k < |b| && a[..k] == b[..k] && a[k] < b[k]
  }

  /** Among digits of one length the order by places is the order of the numbers. */
  lemma {:induction false} OrderIsNumeric(base: nat, a: seq<nat>, b: seq<nat>)
    requires |a| == |b| && Below(a, base) && Below(b, base)
    ensures DigitsBefore(a, b) <==> Number(base, a) < Number(base, b)
    ensures a == b <==> Number(base, a) == Number(base, b)
  {
    if a != [] {
      var n := |a| - 1;
      var x, y := a[..n], b[..n];
      OrderIsNumeric(base, x, y);
      LastPlace(a, b);
      OneMoreDigit(Number(base, x), Number(base, y), base, a[n], b[n]);
      assert a == x + [a[n]] && b == y + [b[n]];
    }
  }

  lemma LastPlace(a: seq<nat>, b: seq<nat>)
    requires |a| == |b| > 0
    ensures var n := |a| - 1;
      DigitsBefore(a, b) <==> DigitsBefore(a[..n], b[..n]) || (a[..n] == b[..n] && a[n] < b[n])
  {
    var n := |a| - 1;
    if k :| 0 <= k < |a| && a[..k] == b[..k] && a[k] < b[k] {
      if k < n {
        assert a[..n][..k] == a[..k] && b[..n][..k] == b[..k];
      }
    }
    if k :| 0 <= k < n && a[..n][..k] == b[..n][..k] && a[..n][k] < b[..n][k] {
      assert a[..n][..k] == a[..k] && b[..n][..k] == b[..k];
    }
  }

  /** The six bits of each digit of a text. */
  function Ranks(text: string): seq<nat> {
    seq(|text|, i requires 0 <= i < |text| => Base64Rank(text[i]))
  }

  /** The bytes that a key text stands for: its 258 bits without the last two, which are none. */
  ghost predicate Encodes(key: string, bytes: seq<nat>) {
    |bytes| == 32 && Below(bytes, 256) && Number(64, Ranks(key)) == 4 * Number(256, bytes)
  }

  lemma RanksOfKey(key: string)
    requires W.IsKeyText(key)
    ensures |Ranks(key)| == 43 && Below(Ranks(key), 64)
  {
  }

  /** The last `width` bytes of a number. */
  function BytesOf(n: nat, width: nat): seq<nat> {
    if width == 0 then [] else BytesOf(n / 256, width - 1) + [n % 256]
  }

  lemma {:induction false} BytesAreIts(n: nat, width: nat)
    requires n < Power(256, width)
    ensures |BytesOf(n, width)| == width && Below(BytesOf(n, width), 256)
    ensures Number(256, BytesOf(n, width)) == n
  {
    if width > 0 {
      BytesAreIts(n / 256, width - 1);
      var d := BytesOf(n, width);
      assert d[..width - 1] == BytesOf(n / 256, width - 1);
    }
  }

  lemma {:induction false} PowerOfPower(base: nat, e: nat, n: nat)
    ensures Power(Power(base, e), n) == Power(base, e * n)
    decreases n
  {
    if n > 0 {
      PowerOfPower(base, e, n - 1);
      assert e * n == e * (n - 1) + e;
      PowerOfSum(base, e * (n - 1), e);
    }
  }

  lemma {:induction false} PowerOfSum(base: nat, m: nat, n: nat)
    ensures Power(base, m + n) == Power(base, m) * Power(base, n)
    decreases n
  {
    if n > 0 {
      PowerOfSum(base, m, n - 1);
      Grouped(Power(base, m), Power(base, n - 1), base);
    }
  }

  lemma Grouped(a: nat, b: nat, c: nat)
    ensures a * b * c == a * (b * c)
  {
  }

  /** 43 digits of six bits hold two bits more than 32 bytes. */
  lemma TwoSpareBits()
    ensures Power(64, 43) == 4 * Power(256, 32)
  {
    PowerOfPower(2, 6, 43);
    PowerOfPower(2, 8, 32);
    PowerOfSum(2, 2, 256);
    assert Power(2, 1) == 2 && Power(2, 2) == 4 && Power(2, 3) == 8 && Power(2, 4) == 16;
    assert Power(2, 5) == 32 && Power(2, 6) == 64 && Power(2, 7) == 128 && Power(2, 8) == 256;
  }

  lemma NumberOfKey(key: string)
    requires W.IsKeyText(key)
    ensures Number(64, Ranks(key)) % 4 == 0
  {
    RanksOfKey(key);
    var digits := Ranks(key);
    var high := Number(64, digits[..42]);
    assert Number(64, digits) == 4 * (16 * high) + digits[42];
  }

  /** Every key text stands for exactly one sequence of 32 bytes. */
  lemma KeyHasBytes(key: string) returns (bytes: seq<nat>)
    requires W.IsKeyText(key)
    ensures Encodes(key, bytes) && forall other :: Encodes(key, other) ==> other == bytes
  {
    RanksOfKey(key);
    NumberOfKey(key);
    NumberIsBounded(64, Ranks(key));
    TwoSpareBits();
    bytes := BytesOf(Number(64, Ranks(key)) / 4, 32);
    BytesAreIts(Number(64, Ranks(key)) / 4, 32);
    forall other | Encodes(key, other) ensures other == bytes {
      OrderIsNumeric(256, other, bytes);
    }
  }

  /** Texts of one length, by the first digit that differs. */
  lemma RanksBefore(a: string, b: string)
    requires W.IsKeyText(a) && W.IsKeyText(b)
    ensures Less(RawBytes, a, b) <==> DigitsBefore(Ranks(a), Ranks(b))
  {
    if Less(RawBytes, a, b) {
      var k := LessIsApart(RawBytes, a, b);
      assert Ranks(a)[..k] == Ranks(b)[..k];
    }
    if k :| 0 <= k < |Ranks(a)| && Ranks(a)[..k] == Ranks(b)[..k] && Ranks(a)[k] < Ranks(b)[k] {
      forall i | 0 <= i < k ensures a[i] == b[i] {
        assert Ranks(a)[..k][i] == Ranks(b)[..k][i];
      }
      ApartIsLess(RawBytes, a, b, k);
    }
  }

  /** The order of the older client is the order of the 32 bytes that the keys stand for. */
  lemma RawBytesMean(a: string, b: string, x: seq<nat>, y: seq<nat>)
    requires W.IsKeyText(a) && W.IsKeyText(b) && Encodes(a, x) && Encodes(b, y)
    ensures Less(RawBytes, a, b) <==> DigitsBefore(x, y)
  {
    RanksOfKey(a);
    RanksOfKey(b);
    RanksBefore(a, b);
    OrderIsNumeric(64, Ranks(a), Ranks(b));
    OrderIsNumeric(256, x, y);
  }

  // ---- the text of 32 bytes ----

  /** The last `width` groups of six bits of a number. */
  function SixesOf(n: nat, width: nat): seq<nat> {
    if width == 0 then [] else SixesOf(n / 64, width - 1) + [n % 64]
  }

  lemma {:induction false} SixesAreIts(n: nat, width: nat)
    requires n < Power(64, width)
    ensures |SixesOf(n, width)| == width && Below(SixesOf(n, width), 64)
    ensures Number(64, SixesOf(n, width)) == n
  {
    if width > 0 {
      SixesAreIts(n / 64, width - 1);
      var d := SixesOf(n, width);
      assert d[..width - 1] == SixesOf(n / 64, width - 1);
    }
  }

  function Text64(digits: seq<nat>): string
    requires forall i :: 0 <= i < |digits| ==> digits[i] < 64
  {
    seq(|digits|, i requires 0 <= i < |digits| => Digit64(digits[i]))
  }

  lemma RanksOfText(digits: seq<nat>)
    requires Below(digits, 64)
    ensures Ranks(Text64(digits)) == digits
  {
    forall i | 0 <= i < |digits| ensures Base64Rank(Text64(digits)[i]) == digits[i] {
      SixBits(digits[i], 'A');
    }
  }

  lemma SameRanks(a: string, b: string)
    requires W.IsKeyText(a) && W.IsKeyText(b) && Ranks(a) == Ranks(b)
    ensures a == b
  {
    forall i | 0 <= i < |a| ensures a[i] == b[i] {
      assert Ranks(a)[i] == Ranks(b)[i];
    }
  }

  /** The digits of four times a number end in a digit without its two low bits. */
  lemma TextIsKey(digits: seq<nat>)
    requires |digits| == 43 && Below(digits, 64) && Number(64, digits) % 4 == 0
    ensures W.IsKeyText(Text64(digits))
  {
    RanksOfText(digits);
    var key := Text64(digits);
    forall i | 0 <= i < 43 ensures Base64Rank(key[i]) == digits[i] {
      assert Ranks(key)[i] == digits[i];
    }
    assert Number(64, digits) == 4 * (16 * Number(64, digits[..42])) + digits[42];
  }

  lemma FortyThree(bytes: seq<nat>) returns (digits: seq<nat>)
    requires |bytes| == 32 && Below(bytes, 256)
    ensures |digits| == 43 && Below(digits, 64) && Number(64, digits) == 4 * Number(256, bytes)
  {
    var n := 4 * Number(256, bytes);
    assert n < Power(64, 43) by {
      NumberIsBounded(256, bytes);
      TwoSpareBits();
    }
    SixesAreIts(n, 43);
    digits := SixesOf(n, 43);
  }

  /** Every 32 bytes have exactly one key text: the check of a key text takes the canonical one only. */
  lemma BytesHaveKey(bytes: seq<nat>) returns (key: string)
    requires |bytes| == 32 && Below(bytes, 256)
    ensures W.IsKeyText(key) && Encodes(key, bytes)
    ensures forall other :: W.IsKeyText(other) && Encodes(other, bytes) ==> other == key
  {
    var digits := FortyThree(bytes);
    key := Text64(digits);
    TextIsKey(digits);
    RanksOfText(digits);
    forall other | W.IsKeyText(other) && Encodes(other, bytes) ensures other == key {
      RanksOfKey(other);
      OrderIsNumeric(64, Ranks(other), Ranks(key));
      SameRanks(other, key);
    }
  }
}
