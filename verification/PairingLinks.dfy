/** The pairing link and the texts that a user may paste for it. */
module PairingLinks {
  import opened Base
  import opened PairingTypes
  import opened Text
  import W = Wire

  datatype LinkFault = BadId | BadLink

  predicate IsIdChar(c: char) {
    'A' <= c <= 'Z' || 'a' <= c <= 'z' || '0' <= c <= '9' || c == '-' || c == '_'
  }

  predicate IsRendezvousId(text: string) {
    |text| == 22 && forall i :: 0 <= i < |text| ==> IsIdChar(text[i])
  }

  function NewLink(id: string, key: string): Result<PairingLink, LinkFault> {
    if !IsRendezvousId(id) then Err(BadId)
    else if !W.IsKeyText(key) then Err(BadLink)
    else Ok(PairingLink(id, key))
  }

  function CodeOf(link: PairingLink): string {
    link.rendezvousId + ['.'] + link.ephemeralKey
  }

  const PAIR: string := "pair="

  /** The first part that starts with `pair=`, without that start. */
  function FindPair(parts: seq<string>): Option<string> {
    if parts == [] then None
    else if PAIR <= parts[0] then Some(parts[0][|PAIR|..])
    else FindPair(parts[1..])
  }

  /** The text after the first `#`, or the whole text. */
  function Fragment(text: string): string {
    match SplitOnce(text, '#')
    case Some((_, fragment)) => fragment
    case None => text
  }

  /** The code in what was pasted. */
  function PastedCode(text: string): string {
    var fragment := Fragment(Trim(text));
    match FindPair(SplitAll(fragment, '&'))
    case Some(code) => code
    case None => fragment
  }

  function Parse(text: string): Result<PairingLink, LinkFault> {
    match SplitOnce(PastedCode(text), '.')
    case None => Err(BadLink)
    case Some((id, key)) => NewLink(id, key)
  }

  predicate ValidLink(link: PairingLink) {
    IsRendezvousId(link.rendezvousId) && W.IsKeyText(link.ephemeralKey)
  }

  /** Characters of a code. */
  predicate CodeChar(c: char) {
    IsIdChar(c) || W.IsBase64Char(c) || c == '.'
  }

  lemma CodeChars(link: PairingLink)
    requires ValidLink(link)
    ensures forall i :: 0 <= i < |CodeOf(link)| ==> CodeChar(CodeOf(link)[i])
    ensures |CodeOf(link)| == 66 && '.' !in link.rendezvousId
  {
  }

  lemma NoSpecial(c: char)
    requires CodeChar(c)
    ensures c != '#' && c != '&' && c != '=' && !IsSpace(c)
  {
  }

  lemma CodeIsPlain(link: PairingLink)
    requires ValidLink(link)
    ensures var code := CodeOf(link);
      '#' !in code && '&' !in code && '=' !in code && !IsSpace(code[0]) && !IsSpace(code[|code| - 1])
  {
    var code := CodeOf(link);
    CodeChars(link);
    forall i | 0 <= i < |code| ensures code[i] != '#' && code[i] != '&' && code[i] != '=' && !IsSpace(code[i]) {
      NoSpecial(code[i]);
    }
  }

  /** A text is a link exactly when its code is the code of that link. */
  lemma ParseMeans(text: string, link: PairingLink)
    ensures Parse(text) == Ok(link) <==> ValidLink(link) && PastedCode(text) == CodeOf(link)
  {
    SplitOnceMeans(PastedCode(text), '.');
    if ValidLink(link) && PastedCode(text) == CodeOf(link) {
      CodeChars(link);
      SplitsAt(link.rendezvousId, '.', link.ephemeralKey);
    }
  }

  lemma CodeIsNoPair(link: PairingLink)
    requires ValidLink(link)
    ensures SplitAll(CodeOf(link), '&') == [CodeOf(link)] && FindPair([CodeOf(link)]) == None
  {
    CodeIsPlain(link);
    SplitAllOnce(CodeOf(link), '&');
    assert PAIR[4] == '=';
    assert FindPair([CodeOf(link)][1..]) == None;
  }

  /** The bare code is read back. */
  lemma CodeReadsBack(link: PairingLink)
    requires ValidLink(link)
    ensures Parse(CodeOf(link)) == Ok(link)
  {
    var code := CodeOf(link);
    CodeChars(link);
    CodeIsPlain(link);
    TrimKeeps(code);
    SplitOnceMeans(code, '#');
    CodeIsNoPair(link);
    ParseMeans(code, link);
  }

  lemma PairIsFound(link: PairingLink)
    requires ValidLink(link)
    ensures '#' !in PAIR + CodeOf(link) && SplitAll(PAIR + CodeOf(link), '&') == [PAIR + CodeOf(link)]
    ensures FindPair([PAIR + CodeOf(link)]) == Some(CodeOf(link))
  {
    CodeIsPlain(link);
    SplitAllOnce(PAIR + CodeOf(link), '&');
    assert (PAIR + CodeOf(link))[|PAIR|..] == CodeOf(link);
  }

  /** So are `pair=` and the code, and any URL without a `#` of its own in front of `#pair=` and the code. */
  lemma LinkReadsBack(link: PairingLink, url: string)
    requires ValidLink(link) && '#' !in url && (url == "" || !IsSpace(url[0]))
    ensures Parse(PAIR + CodeOf(link)) == Ok(link)
    ensures Parse(url + ['#'] + (PAIR + CodeOf(link))) == Ok(link)
  {
    var code := CodeOf(link);
    var pair := PAIR + code;
    CodeChars(link);
    CodeIsPlain(link);
    PairIsFound(link);
    assert pair[|pair| - 1] == code[|code| - 1];
    TrimKeeps(pair);
    SplitOnceMeans(pair, '#');
    ParseMeans(pair, link);
    var text := url + ['#'] + pair;
    assert text[|text| - 1] == code[|code| - 1];
    TrimKeeps(text);
    SplitsAt(url, '#', pair);
    ParseMeans(text, link);
  }

  // ---- what may be pasted ----

  /** The characters of base64url, by their numbers: letters, digits, `-` and `_`. */
  predicate UrlSafe(c: char) {
    var n := c as int;
    65 <= n <= 90 || 97 <= n <= 122 || 48 <= n <= 57 || n == 45 || n == 95
  }

  lemma IdChars(c: char)
    ensures IsIdChar(c) <==> UrlSafe(c)
  {
  }

  /** An id is 22 characters of base64url; a link fails for its id first. */
  lemma NewLinkMeans(id: string, key: string)
    ensures IsRendezvousId(id) <==> |id| == 22 && forall i :: 0 <= i < 22 ==> UrlSafe(id[i])
    ensures !IsRendezvousId(id) ==> NewLink(id, key) == Err(BadId)
    ensures IsRendezvousId(id) && !W.IsKeyText(key) ==> NewLink(id, key) == Err(BadLink)
    ensures IsRendezvousId(id) && W.IsKeyText(key) ==> NewLink(id, key) == Ok(PairingLink(id, key))
  {
    if |id| == 22 {
      forall i | 0 <= i < 22 ensures IsIdChar(id[i]) <==> UrlSafe(id[i]) {
        IdChars(id[i]);
      }
    }
  }

  /** Place `i` is the first part that starts with `pair=`. */
  ghost predicate FirstPair(parts: seq<string>, i: nat) {
    i < |parts| && "pair=" <= parts[i] && forall j :: 0 <= j < i ==> !("pair=" <= parts[j])
  }

  lemma {:induction false} FindPairMeans(parts: seq<string>, i: nat)
    requires FirstPair(parts, i)
    ensures FindPair(parts) == Some(parts[i][5..])
    decreases i
  {
    if i > 0 {
      FindPairMeans(parts[1..], i - 1);
    }
  }

  lemma {:induction false} NoPair(parts: seq<string>)
    requires forall j :: 0 <= j < |parts| ==> !("pair=" <= parts[j])
    ensures FindPair(parts) == None
    decreases |parts|
  {
    if parts != [] {
      NoPair(parts[1..]);
    }
  }

  /** `f` is what stands after the first `#` of `t`, or all of it. */
  ghost predicate IsFragment(t: string, f: string) {
    if '#' in t then exists url :: '#' !in url && t == url + ['#'] + f else f == t
  }

  lemma FragmentMeans(t: string, f: string)
    ensures Fragment(t) == f <==> IsFragment(t, f)
  {
    SplitOnceMeans(t, '#');
    if '#' in t {
      var url := SplitOnce(t, '#').value.0;
      assert t == url + ['#'] + Fragment(t);
      if u :| '#' !in u && t == u + ['#'] + f {
        CutOnce(url, Fragment(t), u, f, '#');
      }
    }
  }

  /**
   * The code in a pasted text: of what stands after the first `#` of the trimmed text, the first part between
   * `&` that starts with `pair=`, without that start; without such a part, all of it.
   */
  lemma PastedCodeMeans(text: string, f: string, parts: seq<string>, i: nat)
    requires IsFragment(Trim(text), f)
    requires parts != [] && f == Rejoined(parts, '&') && forall k :: 0 <= k < |parts| ==> '&' !in parts[k]
    ensures FirstPair(parts, i) ==> PastedCode(text) == parts[i][5..]
    ensures (forall k :: 0 <= k < |parts| ==> !("pair=" <= parts[k])) ==> PastedCode(text) == f
  {
    FragmentMeans(Trim(text), f);
    JoinedSplits(parts, '&');
    if FirstPair(parts, i) {
      FindPairMeans(parts, i);
    }
    if forall k :: 0 <= k < |parts| ==> !("pair=" <= parts[k]) {
      NoPair(parts);
    }
  }

  /** A code is cut at its first point; without one it is no link. */
  lemma ParseFails(text: string, id: string, key: string)
    ensures '.' !in PastedCode(text) ==> Parse(text) == Err(BadLink)
    ensures PastedCode(text) == id + ['.'] + key && '.' !in id ==> Parse(text) == NewLink(id, key)
  {
    SplitOnceMeans(PastedCode(text), '.');
    if PastedCode(text) == id + ['.'] + key && '.' !in id {
      SplitsAt(id, '.', key);
    }
  }
}
