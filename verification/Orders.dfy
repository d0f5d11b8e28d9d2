/** The two orders in which builds of the client sort key texts, and sorting by either. */
module Orders {

  /** A character's rank decides a lexicographic order of texts. */
  datatype KeyOrder = PlainText | RawBytes

  /** The value of a standard base64 digit; every other character ranks above them. */
  function Base64Rank(c: char): nat {
    if 'A' <= c <= 'Z' then c as nat - 'A' as nat
    else if 'a' <= c <= 'z' then c as nat - 'a' as nat + 26
    else if '0' <= c <= '9' then c as nat - '0' as nat + 52
    else if c == '+' then 62
    else if c == '/' then 63
    else c as nat + 64
  }

  function Rank(order: KeyOrder, c: char): nat {
    match order
    case PlainText => c as nat
    case RawBytes => Base64Rank(c)
  }

  predicate Less(order: KeyOrder, a: string, b: string) {
    b != [] &&
    (a == [] || Rank(order, a[0]) < Rank(order, b[0]) || (a[0] == b[0] && Less(order, a[1..], b[1..])))
  }

  // ---- the two orders, by places ----

  /** The texts agree up to place `k`, where `a` ends or has the character of the smaller rank. */
  predicate FirstApart(order: KeyOrder, a: string, b: string, k: nat) {
    k <= |a| && k < |b| && a[..k] == b[..k] && (k == |a| || Rank(order, a[k]) < Rank(order, b[k]))
  }

  lemma {:induction false} LessIsApart(order: KeyOrder, a: string, b: string) returns (k: nat)
    requires Less(order, a, b)
    ensures FirstApart(order, a, b, k)
  {
    k := 0;
    if a != [] && a[0] == b[0] {
      k := LessIsApart(order, a[1..], b[1..]);
      assert a[..k + 1] == [a[0]] + a[1..][..k] && b[..k + 1] == [b[0]] + b[1..][..k];
      k := k + 1;
    }
  }

  lemma {:induction false} ApartIsLess(order: KeyOrder, a: string, b: string, k: nat)
    requires FirstApart(order, a, b, k)
    ensures Less(order, a, b)
  {
    if k > 0 {
      assert a[0] == a[..k][0] == b[..k][0] == b[0];
      assert a[1..][..k - 1] == a[..k][1..] && b[1..][..k - 1] == b[..k][1..];
      ApartIsLess(order, a[1..], b[1..], k - 1);
    }
  }

  /** `a` stands before `b` as plain text: at the first place where they differ, or by its end. */
  ghost predicate PlainBefore(a: string, b: string) {
    exists k: nat :: k <= |a| && k < |b| && a[..k] == b[..k] && (k == |a| || a[k] < b[k])
  }

  /** The order of the current client is the plain order of the texts, character by character. */
  lemma PlainTextMeans(a: string, b: string)
    ensures Less(PlainText, a, b) <==> PlainBefore(a, b)
  {
    if Less(PlainText, a, b) {
      var k := LessIsApart(PlainText, a, b);
    }
    if k: nat :| k <= |a| && k < |b| && a[..k] == b[..k] && (k == |a| || a[k] < b[k]) {
      ApartIsLess(PlainText, a, b, k);
    }
  }

  /** The base64 digit of six bits. */
  function Digit64(bits: nat): char
    requires bits < 64
  {
    if bits < 26 then ('A' as int + bits) as char
    else if bits < 52 then ('a' as int + (bits - 26)) as char
    else if bits < 62 then ('0' as int + (bits - 52)) as char
    else if bits == 62 then '+' else '/'
  }

  /** Ranks read digits back: the letters are 0 to 51, the figures 52 to 61, then plus and slash; the rest is above. */
  lemma SixBits(bits: nat, c: char)
    ensures bits < 64 ==> Base64Rank(Digit64(bits)) == bits
    ensures Base64Rank(c) < 64 <==> exists b: nat :: b < 64 && c == Digit64(b)
    ensures Base64Rank('A') == 0 && Base64Rank('Z') == 25 && Base64Rank('a') == 26 && Base64Rank('z') == 51
    ensures Base64Rank('0') == 52 && Base64Rank('9') == 61 && Base64Rank('+') == 62 && Base64Rank('/') == 63
  {
    if Base64Rank(c) < 64 {
      assert c == Digit64(Base64Rank(c));
    }
    if b: nat :| b < 64 && c == Digit64(b) {
      assert Base64Rank(Digit64(b)) == b;
    }
  }

  lemma {:induction false} LessAsymmetric(order: KeyOrder, a: string, b: string)
    ensures !(Less(order, a, b) && Less(order, b, a))
  {
    if a != [] && b != [] {
      LessAsymmetric(order, a[1..], b[1..]);
    }
  }

  lemma {:induction false} LessTransitive(order: KeyOrder, a: string, b: string, c: string)
    requires Less(order, a, b) && Less(order, b, c)
    ensures Less(order, a, c)
  {
    if a != [] && a[0] == b[0] == c[0] {
      LessTransitive(order, a[1..], b[1..], c[1..]);
    }
  }

  lemma {:induction false} LessTotal(order: KeyOrder, a: string, b: string)
    ensures a == b || Less(order, a, b) || Less(order, b, a)
  {
    if a != [] && b != [] && a[0] == b[0] {
      LessTotal(order, a[1..], b[1..]);
      assert a == [a[0]] + a[1..] && b == [b[0]] + b[1..];
    }
  }

  // ---- sorting ----

  function Insert(order: KeyOrder, key: string, sorted: seq<string>): (r: seq<string>)
    ensures multiset(r) == multiset(sorted) + multiset{key}
  {
    if sorted == [] || !Less(order, sorted[0], key) then [key] + sorted
    else
      assert sorted == [sorted[0]] + sorted[1..];
      [sorted[0]] + Insert(order, key, sorted[1..])
  }

  function Sort(order: KeyOrder, keys: seq<string>): (r: seq<string>)
    ensures multiset(r) == multiset(keys)
    ensures |r| == |keys|
  {
    if keys == [] then []
    else
      assert keys == [keys[0]] + keys[1..];
      var r := Insert(order, keys[0], Sort(order, keys[1..]));
      assert |multiset(r)| == |r| && |multiset(keys)| == |keys|;
      r
  }

  /** Each key is at or before the ones that follow it. */
  ghost predicate Ascending(order: KeyOrder, keys: seq<string>) {
    forall i, j :: 0 <= i < j < |keys| ==> keys[i] == keys[j] || Less(order, keys[i], keys[j])
  }

  lemma {:induction false} InsertAscends(order: KeyOrder, key: string, sorted: seq<string>)
    requires Ascending(order, sorted)
    ensures Ascending(order, Insert(order, key, sorted))
  {
    if sorted != [] {
      LessTotal(order, sorted[0], key);
      if Less(order, sorted[0], key) {
        InsertAscends(order, key, sorted[1..]);
        var rest := Insert(order, key, sorted[1..]);
        forall j | 0 <= j < |rest| ensures sorted[0] == rest[j] || Less(order, sorted[0], rest[j]) {
          assert rest[j] in multiset(rest);
          assert rest[j] == key || rest[j] in sorted[1..];
        }
      } else {
        forall j | 0 <= j < |sorted| ensures key == sorted[j] || Less(order, key, sorted[j]) {
          if j > 0 && key != sorted[0] && sorted[j] != sorted[0] {
            LessTransitive(order, key, sorted[0], sorted[j]);
          }
        }
      }
    }
  }

  lemma {:induction false} SortAscends(order: KeyOrder, keys: seq<string>)
    ensures Ascending(order, Sort(order, keys))
  {
    if keys != [] {
      SortAscends(order, keys[1..]);
      InsertAscends(order, keys[0], Sort(order, keys[1..]));
    }
  }

  /** The first key of an ascending list is not above any other of its keys. */
  lemma FirstIsLeast(order: KeyOrder, a: seq<string>, key: string)
    requires Ascending(order, a) && key in a
    ensures a[0] == key || Less(order, a[0], key)
  {
    var i :| 0 <= i < |a| && a[i] == key;
    assert i == 0 || a[0] == a[i] || Less(order, a[0], a[i]);
  }

  lemma TailMultiset<T>(a: seq<T>)
    requires a != []
    ensures multiset(a) == multiset{a[0]} + multiset(a[1..])
    ensures multiset(a[1..]) == multiset(a) - multiset{a[0]}
  {
    assert a == [a[0]] + a[1..];
  }

  /** Ascending lists of the same keys are the same list. */
  lemma {:induction false} AscendingUnique(order: KeyOrder, a: seq<string>, b: seq<string>)
    requires Ascending(order, a) && Ascending(order, b)
    requires multiset(a) == multiset(b)
    ensures a == b
  {
    assert |a| == |multiset(a)| == |multiset(b)| == |b|;
    if a != [] {
      assert a[0] == b[0] by {
        assert a[0] in multiset(b) && b[0] in multiset(a);
        FirstIsLeast(order, a, b[0]);
        FirstIsLeast(order, b, a[0]);
        LessAsymmetric(order, a[0], b[0]);
      }
      assert multiset(a[1..]) == multiset(b[1..]) by {
        TailMultiset(a);
        TailMultiset(b);
      }
      AscendingUnique(order, a[1..], b[1..]);
      assert a == [a[0]] + a[1..] && b == [b[0]] + b[1..];
    }
  }

  /** The caller's order of the keys has no influence on the sorted list. */
  lemma SortCanonical(order: KeyOrder, a: seq<string>, b: seq<string>)
    requires multiset(a) == multiset(b)
    ensures Sort(order, a) == Sort(order, b)
  {
    SortAscends(order, a);
    SortAscends(order, b);
    AscendingUnique(order, Sort(order, a), Sort(order, b));
  }

  lemma SortIdempotent(order: KeyOrder, keys: seq<string>)
    ensures Sort(order, Sort(order, keys)) == Sort(order, keys)
  {
    SortCanonical(order, Sort(order, keys), keys);
  }

  ghost predicate Distinct<T>(s: seq<T>) {
    forall i, j :: 0 <= i < j < |s| ==> s[i] != s[j]
  }

  lemma DistinctByMultiset<T>(a: seq<T>, b: seq<T>)
    requires Distinct(a) && multiset(a) == multiset(b)
    ensures Distinct(b)
  {
    forall i, j | 0 <= i < j < |b| ensures b[i] != b[j] {
      if b[i] == b[j] {
        assert b == b[..i] + [b[i]] + b[i + 1..j] + [b[j]] + b[j + 1..];
        assert multiset(b)[b[i]] >= 2;
        DistinctCounts(a, b[i]);
      }
    }
  }

  lemma {:induction false} DistinctCounts<T>(a: seq<T>, x: T)
    requires Distinct(a)
    ensures multiset(a)[x] <= 1
  {
    if a != [] {
      assert a == [a[0]] + a[1..];
      DistinctCounts(a[1..], x);
      if x == a[0] {
        assert x !in a[1..];
      }
    }
  }
}
