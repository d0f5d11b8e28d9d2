/** Nicknames under the casemapping of a network. */
module Nicks {

  datatype CaseMapping = Ascii | Rfc1459 | Rfc1459Strict

  function FoldChar(mapping: CaseMapping, c: char): char {
    if 'A' <= c <= 'Z' then c - 'A' + 'a'
    else if mapping != Ascii && c == '[' then '{'
    else if mapping != Ascii && c == ']' then '}'
    else if mapping != Ascii && c == '\\' then '|'
    else if mapping == Rfc1459 && c == '~' then '^'
    else c
  }

  function Fold(mapping: CaseMapping, name: string): string {
    seq(|name|, i requires 0 <= i < |name| => FoldChar(mapping, name[i]))
  }

  predicate SameNick(mapping: CaseMapping, a: string, b: string) {
    Fold(mapping, a) == Fold(mapping, b)
  }

  const UPPER: string := "ABCDEFGHIJKLMNOPQRSTUVWXYZ"
  const LOWER: string := "abcdefghijklmnopqrstuvwxyz"

  lemma LettersFold(mapping: CaseMapping, i: nat)
    requires i < 26
    ensures FoldChar(mapping, UPPER[i]) == LOWER[i] && FoldChar(mapping, LOWER[i]) == LOWER[i]
  {
  }

  lemma CapitalsAreUpper(c: char)
    ensures 'A' <= c <= 'Z' ==> c in UPPER
  {
    if 'A' <= c <= 'Z' {
      assert UPPER[c as int - 'A' as int] == c;
    }
  }

  /**
   * Letters of ASCII fold under every mapping, the three brackets under the two of RFC 1459, the tilde under the
   * plain one of them, and nothing else folds. A name folds character by character.
   */
  lemma FoldTable(mapping: CaseMapping, c: char, i: nat, name: string)
    requires i < 26
    ensures FoldChar(mapping, UPPER[i]) == LOWER[i] && FoldChar(mapping, LOWER[i]) == LOWER[i]
    ensures FoldChar(Ascii, '[') == '[' && FoldChar(Ascii, ']') == ']' && FoldChar(Ascii, '\\') == '\\'
    ensures mapping != Ascii ==> FoldChar(mapping, '[') == '{' && FoldChar(mapping, ']') == '}' && FoldChar(mapping, '\\') == '|'
    ensures FoldChar(mapping, '~') == if mapping == Rfc1459 then '^' else '~'
    ensures c !in UPPER && c != '[' && c != ']' && c != '\\' && c != '~' ==> FoldChar(mapping, c) == c
    ensures |Fold(mapping, name)| == |name|
    ensures i < |name| ==> Fold(mapping, name)[i] == FoldChar(mapping, name[i])
  {
    LettersFold(mapping, i);
    CapitalsAreUpper(c);
  }

  /** A folded name folds to itself, so a name is the same user as its key. */
  lemma FoldTwice(mapping: CaseMapping, name: string)
    ensures Fold(mapping, Fold(mapping, name)) == Fold(mapping, name)
    ensures SameNick(mapping, name, Fold(mapping, name))
  {
    var folded := Fold(mapping, name);
    forall i | 0 <= i < |name| ensures FoldChar(mapping, folded[i]) == folded[i] {
    }
  }

  /** Who is one user under a mapping stays one user under a coarser mapping. */
  lemma CoarserMapping(a: string, b: string)
    ensures SameNick(Ascii, a, b) ==> SameNick(Rfc1459Strict, a, b)
    ensures SameNick(Rfc1459Strict, a, b) ==> SameNick(Rfc1459, a, b)
  {
    if SameNick(Ascii, a, b) {
      FoldsTogether(Ascii, Rfc1459Strict, a, b);
    }
    if SameNick(Rfc1459Strict, a, b) {
      FoldsTogether(Rfc1459Strict, Rfc1459, a, b);
    }
  }

  lemma FoldsTogether(fine: CaseMapping, coarse: CaseMapping, a: string, b: string)
    requires SameNick(fine, a, b)
    requires coarse == Rfc1459 || (coarse == Rfc1459Strict && fine == Ascii)
    ensures SameNick(coarse, a, b)
  {
    assert |Fold(fine, a)| == |Fold(fine, b)|;
    forall i | 0 <= i < |a| ensures FoldChar(coarse, a[i]) == FoldChar(coarse, b[i]) {
      assert Fold(fine, a)[i] == Fold(fine, b)[i];
    }
  }
}
