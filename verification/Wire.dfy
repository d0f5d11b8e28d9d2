/** Wire v2: key texts, signed texts, the list version rule and the limits of the pairing relay. */
module Wire {
  import opened Base
  import opened Orders
  import Text

  const MAX_LIST_DEVICES: nat := 4
  const MAX_ENROLLED_DEVICES: nat := 3
  const MAX_VERSION: nat := 0x7FFF_FFFF
  const KEY_TEXT_LEN: nat := 43
  const PAIRING_LIFETIME_SECS: int := 300
  const PAIRING_MESSAGE_MAX_BYTES: nat := 16 * 1024
  const PAIRING_TOTAL_MAX_BYTES: nat := 64 * 1024
  const PAIRING_MAX_MESSAGES: nat := 64

  datatype WireError = BadKey | BadSignature | BadVersion | DuplicateDevice | BadDeviceCount

  // ---- the limits of the relay ----

  /** Whether the relay takes one more message after `count` messages of `total` bytes. */
  predicate PairingMessageFits(count: nat, total: nat, next: nat) {
    && next <= PAIRING_MESSAGE_MAX_BYTES
    && count < PAIRING_MAX_MESSAGES
    && total + next <= USIZE_MAX
    && total + next <= PAIRING_TOTAL_MAX_BYTES
  }

  /** Length of `n` bytes in base64 without padding. */
  function Base64Len(n: nat): nat {
    (4 * n + 2) / 3
  }

  // ---- key texts ----

  predicate IsBase64Char(c: char) {
    Base64Rank(c) < 64
  }

  /** The canonical text of 32 bytes: 43 digits, and no spare bit set in the last one. */
  predicate IsKeyText(s: string) {
    && |s| == KEY_TEXT_LEN
    && (forall i :: 0 <= i < |s| ==> IsBase64Char(s[i]))
    && Base64Rank(s[KEY_TEXT_LEN - 1]) % 4 == 0
  }

  // ---- device lists ----

  /** The loop of the list check, from device `i` on. */
  function CheckFrom(keys: seq<string>, i: nat): Result<(), WireError>
    requires i <= |keys|
    decreases |keys| - i
  {
    if i == |keys| then Ok(())
    else if !IsKeyText(keys[i]) then Err(BadKey)
    else if keys[i] in keys[..i] then Err(DuplicateDevice)
    else CheckFrom(keys, i + 1)
  }

  /** A list holds 1 to 4 valid keys without a repeat. */
  function CheckListDevices(keys: seq<string>): Result<(), WireError> {
    if keys == [] || |keys| > MAX_LIST_DEVICES then Err(BadDeviceCount) else CheckFrom(keys, 0)
  }

  ghost predicate ValidKeys(keys: seq<string>) {
    && 1 <= |keys| <= MAX_LIST_DEVICES
    && (forall key :: key in keys ==> IsKeyText(key))
    && Distinct(keys)
  }

  lemma {:induction false} CheckFromMeans(keys: seq<string>, i: nat)
    requires i <= |keys|
    ensures CheckFrom(keys, i).Ok? <==>
      (forall j :: i <= j < |keys| ==> IsKeyText(keys[j]) && keys[j] !in keys[..j])
    decreases |keys| - i
  {
    if i < |keys| {
      CheckFromMeans(keys, i + 1);
    }
  }

  lemma CheckListDevicesMeans(keys: seq<string>)
    ensures CheckListDevices(keys).Ok? <==> ValidKeys(keys)
  {
    if keys != [] && |keys| <= MAX_LIST_DEVICES {
      CheckFromMeans(keys, 0);
      if CheckListDevices(keys).Ok? {
        forall i, j | 0 <= i < j < |keys| ensures keys[i] != keys[j] {
          assert keys[..j][i] == keys[i];
        }
      }
    }
  }

  lemma ValidKeysByMultiset(a: seq<string>, b: seq<string>)
    requires ValidKeys(a) && multiset(a) == multiset(b)
    ensures ValidKeys(b)
  {
    assert |a| == |multiset(a)| == |multiset(b)| == |b|;
    DistinctByMultiset(a, b);
    forall key | key in b ensures IsKeyText(key) {
      assert key in multiset(a);
    }
  }

  /** The keys of a valid list in the contract order. */
  function SortListKeys(keys: seq<string>): Result<seq<string>, WireError> {
    match CheckListDevices(keys)
    case Err(e) => Err(e)
    case Ok(_) => Ok(Sort(PlainText, keys))
  }

  // ---- signed texts ----

  const ID_PREFIX := "irc-e2e:v2:id:"
  const DEVICE_PREFIX := "irc-e2e:v2:dev:"
  const LIST_PREFIX := "irc-e2e:v2:list:"

  function IdText(curve: string, master: string): string {
    ID_PREFIX + (curve + ":" + master)
  }

  predicate IsVersion(version: nat) {
    1 <= version <= MAX_VERSION
  }

  function DeviceText(version: nat, device: string): Result<string, WireError> {
    if !IsVersion(version) then Err(BadVersion)
    else if !IsKeyText(device) then Err(BadKey)
    else Ok(DEVICE_PREFIX + (Text.Decimal(version) + ":" + device))
  }

  function Join(keys: seq<string>): string {
    if keys == [] then ""
    else if |keys| == 1 then keys[0]
    else keys[0] + "," + Join(keys[1..])
  }

  /** The text of a list whose keys are written in the order `order`. */
  function ListTextIn(order: KeyOrder, version: nat, keys: seq<string>): Result<string, WireError> {
    if !IsVersion(version) then Err(BadVersion)
    else match CheckListDevices(keys)
    case Err(e) => Err(e)
    case Ok(_) => Ok(LIST_PREFIX + (Text.Decimal(version) + ":" + Join(Sort(order, keys))))
  }

  /** The text that a master signs for a device list. */
  function ListText(version: nat, keys: seq<string>): Result<string, WireError> {
    ListTextIn(PlainText, version, keys)
  }

  /** The text of an older build, over the raw byte order of the keys. */
  function LegacyListText(version: nat, keys: seq<string>): Result<string, WireError> {
    ListTextIn(RawBytes, version, keys)
  }

  lemma DecimalHasNoColon(n: nat)
    ensures ':' !in Text.Decimal(n)
  {
    Text.DecimalRoundTrip(n);
  }

  /** Keys have one length, so a joined text splits in one way only. */
  lemma {:induction false} JoinInjective(a: seq<string>, b: seq<string>)
    requires (forall key :: key in a ==> |key| == KEY_TEXT_LEN) && (forall key :: key in b ==> |key| == KEY_TEXT_LEN)
    requires Join(a) == Join(b)
    ensures a == b
  {
    JoinLength(a);
    JoinLength(b);
    if a != [] && b != [] {
      assert Join(a)[..KEY_TEXT_LEN] == a[0];
      assert Join(b)[..KEY_TEXT_LEN] == b[0];
      if |a| > 1 {
        assert Join(a)[KEY_TEXT_LEN + 1..] == Join(a[1..]);
        assert Join(b)[KEY_TEXT_LEN + 1..] == Join(b[1..]);
        JoinInjective(a[1..], b[1..]);
        assert a == [a[0]] + a[1..] && b == [b[0]] + b[1..];
      }
    }
  }

  lemma {:induction false} JoinLength(a: seq<string>)
    requires forall key :: key in a ==> |key| == KEY_TEXT_LEN
    ensures |Join(a)| == if a == [] then 0 else (KEY_TEXT_LEN + 1) * |a| - 1
  {
    if |a| > 1 {
      JoinLength(a[1..]);
    }
  }

  /** One signed list text stands for one version and one set of keys, in one of the two orders. */
  lemma ListTextInjective(o1: KeyOrder, v1: nat, k1: seq<string>, o2: KeyOrder, v2: nat, k2: seq<string>)
    requires ListTextIn(o1, v1, k1).Ok? && ListTextIn(o1, v1, k1) == ListTextIn(o2, v2, k2)
    ensures v1 == v2 && Sort(o1, k1) == Sort(o2, k2) && multiset(k1) == multiset(k2)
  {
    var a, b := Join(Sort(o1, k1)), Join(Sort(o2, k2));
    var t1, t2 := ListTextIn(o1, v1, k1).value, ListTextIn(o2, v2, k2).value;
    assert t1[|LIST_PREFIX|..] == Text.Decimal(v1) + ":" + a;
    assert t2[|LIST_PREFIX|..] == Text.Decimal(v2) + ":" + b;
    DecimalHasNoColon(v1);
    DecimalHasNoColon(v2);
    Text.CutOnce(Text.Decimal(v1), a, Text.Decimal(v2), b, ':');
    Text.DecimalInjective(v1, v2);
    SortedKeyLengths(o1, k1);
    SortedKeyLengths(o2, k2);
    JoinInjective(Sort(o1, k1), Sort(o2, k2));
  }

  lemma SortedKeyLengths(order: KeyOrder, keys: seq<string>)
    requires CheckListDevices(keys).Ok?
    ensures forall key :: key in Sort(order, keys) ==> |key| == KEY_TEXT_LEN
  {
    CheckListDevicesMeans(keys);
    forall key | key in Sort(order, keys) ensures |key| == KEY_TEXT_LEN {
      assert key in multiset(Sort(order, keys));
      assert key in keys;
    }
  }

  lemma DeviceTextInjective(v1: nat, d1: string, v2: nat, d2: string)
    requires DeviceText(v1, d1).Ok? && DeviceText(v1, d1) == DeviceText(v2, d2)
    ensures v1 == v2 && d1 == d2
  {
    var t1, t2 := DeviceText(v1, d1).value, DeviceText(v2, d2).value;
    assert t1[|DEVICE_PREFIX|..] == Text.Decimal(v1) + ":" + d1;
    assert t2[|DEVICE_PREFIX|..] == Text.Decimal(v2) + ":" + d2;
    DecimalHasNoColon(v1);
    DecimalHasNoColon(v2);
    Text.CutOnce(Text.Decimal(v1), d1, Text.Decimal(v2), d2, ':');
    Text.DecimalInjective(v1, v2);
  }

  lemma IdTextInjective(c1: string, m1: string, c2: string, m2: string)
    requires IsKeyText(c1) && IsKeyText(c2) && IdText(c1, m1) == IdText(c2, m2)
    ensures c1 == c2 && m1 == m2
  {
    assert IdText(c1, m1)[|ID_PREFIX|..] == c1 + ":" + m1;
    assert IdText(c2, m2)[|ID_PREFIX|..] == c2 + ":" + m2;
    Text.CutOnce(c1, m1, c2, m2, ':');
  }

  /** A signature over one kind of text never verifies as another kind. */
  lemma SignedTextsApart(curve: string, master: string, version: nat, device: string,
                         order: KeyOrder, listVersion: nat, keys: seq<string>)
    ensures DeviceText(version, device).Ok? ==> DeviceText(version, device).value != IdText(curve, master)
    ensures ListTextIn(order, listVersion, keys).Ok? ==>
      ListTextIn(order, listVersion, keys).value != IdText(curve, master)
    ensures DeviceText(version, device).Ok? && ListTextIn(order, listVersion, keys).Ok? ==>
      DeviceText(version, device).value != ListTextIn(order, listVersion, keys).value
  {
    assert IdText(curve, master)[11] == 'i';
    assert DeviceText(version, device).Ok? ==> DeviceText(version, device).value[11] == 'd';
    assert ListTextIn(order, listVersion, keys).Ok? ==> ListTextIn(order, listVersion, keys).value[11] == 'l';
  }

  /** The order in which a caller passes the keys has no influence on the text. */
  lemma ListTextCanonical(order: KeyOrder, version: nat, a: seq<string>, b: seq<string>)
    requires ValidKeys(a) && multiset(a) == multiset(b)
    ensures ListTextIn(order, version, a) == ListTextIn(order, version, b)
  {
    ValidKeysByMultiset(a, b);
    CheckListDevicesMeans(a);
    CheckListDevicesMeans(b);
    SortCanonical(order, a, b);
  }

  // ---- the list version rule ----

  datatype ListDecision = Replace | NoOp | Ignore

  function DecideList(stored: Option<(nat, seq<string>)>, version: nat, keys: seq<string>): ListDecision {
    match stored
    case None => Replace
    case Some((held, heldKeys)) =>
      if version > held then Replace
      else if version < held then Ignore
      else if Sort(PlainText, heldKeys) == Sort(PlainText, keys) then NoOp
      else Ignore
  }

  lemma DecideListMeans(stored: Option<(nat, seq<string>)>, version: nat, keys: seq<string>)
    ensures DecideList(stored, version, keys) == Replace <==> stored.None? || version > stored.value.0
    ensures DecideList(stored, version, keys) == NoOp <==>
      stored.Some? && version == stored.value.0 && multiset(keys) == multiset(stored.value.1)
  {
    if stored.Some? {
      if multiset(keys) == multiset(stored.value.1) {
        SortCanonical(PlainText, keys, stored.value.1);
      }
      assert multiset(Sort(PlainText, keys)) == multiset(keys);
      assert multiset(Sort(PlainText, stored.value.1)) == multiset(stored.value.1);
    }
  }
}
