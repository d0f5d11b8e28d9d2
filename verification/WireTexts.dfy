/** What the checks and the texts of the wire mean, spelled out: limits, key texts, lists and signed texts. */
module WireTexts {
  import opened Base
  import opened Orders
  import opened Text
  import opened Wire

  // ---- limits and lengths ----

  /** The relay takes at most 64 messages of 16 KiB, and 64 KiB in all. */
  lemma RelayLimits(count: nat, total: nat, next: nat)
    ensures PairingMessageFits(count, total, next) <==> next <= 16_384 && count < 64 && total + next <= 65_536
  {
  }

  /** Three bytes are four digits; one byte more is two digits, and two bytes are three. */
  lemma Base64Groups(k: nat)
    ensures Base64Len(3 * k) == 4 * k && Base64Len(3 * k + 1) == 4 * k + 2 && Base64Len(3 * k + 2) == 4 * k + 3
  {
  }

  // ---- lists of devices ----

  /** The first bad place of a list: its key is no key text, or stands before it. */
  ghost predicate FirstBad(keys: seq<string>, i: nat) {
    && i < |keys| && (!IsKeyText(keys[i]) || keys[i] in keys[..i])
    && forall j :: 0 <= j < i ==> IsKeyText(keys[j]) && keys[j] !in keys[..j]
  }

  lemma {:induction false} CheckFindsBad(keys: seq<string>, from: nat, i: nat)
    requires from <= i && FirstBad(keys, i)
    ensures CheckFrom(keys, from) == Err(if IsKeyText(keys[i]) then DuplicateDevice else BadKey)
    decreases i - from
  {
    if from < i {
      CheckFindsBad(keys, from + 1, i);
    }
  }

  lemma {:induction false} BadIsThere(keys: seq<string>, from: nat) returns (i: nat)
    requires from <= |keys| && CheckFrom(keys, from).Err?
    requires forall j :: 0 <= j < from ==> IsKeyText(keys[j]) && keys[j] !in keys[..j]
    ensures FirstBad(keys, i)
    decreases |keys| - from
  {
    i := from;
    if IsKeyText(keys[from]) && keys[from] !in keys[..from] {
      i := BadIsThere(keys, from + 1);
    }
  }

  /** A list fails by its length first, else by its first bad place. */
  lemma ListFails(keys: seq<string>)
    ensures CheckListDevices(keys) == Err(BadDeviceCount) <==> |keys| == 0 || |keys| > 4
    ensures 1 <= |keys| <= 4 ==> (CheckListDevices(keys) == Err(BadKey) <==> exists i: nat :: FirstBad(keys, i) && !IsKeyText(keys[i]))
    ensures 1 <= |keys| <= 4 ==> (CheckListDevices(keys) == Err(DuplicateDevice) <==> exists i: nat :: FirstBad(keys, i) && IsKeyText(keys[i]))
    ensures CheckListDevices(keys).Ok? ==> forall i: nat :: !FirstBad(keys, i)
  {
    forall i: nat | FirstBad(keys, i)
      ensures CheckFrom(keys, 0) == Err(if IsKeyText(keys[i]) then DuplicateDevice else BadKey)
    {
      CheckFindsBad(keys, 0, i);
    }
    if CheckFrom(keys, 0).Err? {
      var i := BadIsThere(keys, 0);
    } else {
      CheckFromMeans(keys, 0);
    }
  }

  // ---- signed texts ----

  lemma {:induction false} JoinSplits(keys: seq<string>)
    requires keys != [] && forall key :: key in keys ==> ',' !in key
    ensures SplitAll(Join(keys), ',') == keys
  {
    if |keys| == 1 {
      SplitAllOnce(keys[0], ',');
    } else {
      assert forall key :: key in keys[1..] ==> key in keys;
      JoinSplits(keys[1..]);
      SplitAllStep(keys[0], ',', Join(keys[1..]));
      assert Join(keys) == keys[0] + [','] + Join(keys[1..]);
      assert keys == [keys[0]] + keys[1..];
    }
  }

  lemma KeyHasNoComma(key: string)
    requires IsKeyText(key)
    ensures ',' !in key
  {
  }

  /** The keys in ascending plain text. */
  ghost predicate PlainAscending(keys: seq<string>) {
    forall i, j :: 0 <= i < j < |keys| ==> PlainBefore(keys[i], keys[j])
  }

  /** `text` is `prefix`, the version, a colon, and `sorted` joined by commas. */
  predicate Spelled(text: string, prefix: string, version: nat, sorted: seq<string>) {
    prefix + Decimal(version) + ":" <= text && SplitAll(text[|prefix + Decimal(version) + ":"|..], ',') == sorted
  }

  lemma SortedIsPlain(keys: seq<string>)
    requires ValidKeys(keys)
    ensures PlainAscending(Sort(PlainText, keys)) && ValidKeys(Sort(PlainText, keys))
  {
    var sorted := Sort(PlainText, keys);
    ValidKeysByMultiset(keys, sorted);
    SortAscends(PlainText, keys);
    forall i, j | 0 <= i < j < |sorted| ensures PlainBefore(sorted[i], sorted[j]) {
      assert sorted[i] != sorted[j];
      PlainTextMeans(sorted[i], sorted[j]);
    }
  }

  /** Keys in ascending plain text are the sorted ones. */
  lemma PlainIsSorted(keys: seq<string>, sorted: seq<string>)
    requires multiset(sorted) == multiset(keys) && PlainAscending(sorted)
    ensures sorted == Sort(PlainText, keys)
  {
    forall i, j | 0 <= i < j < |sorted| ensures Less(PlainText, sorted[i], sorted[j]) {
      PlainTextMeans(sorted[i], sorted[j]);
    }
    SortAscends(PlainText, keys);
    AscendingUnique(PlainText, sorted, Sort(PlainText, keys));
  }

  lemma ListIsSpelled(order: KeyOrder, version: nat, keys: seq<string>)
    requires ListTextIn(order, version, keys).Ok?
    ensures Spelled(ListTextIn(order, version, keys).value, "irc-e2e:v2:list:", version, Sort(order, keys))
  {
    var sorted := Sort(order, keys);
    CheckListDevicesMeans(keys);
    ValidKeysByMultiset(keys, sorted);
    forall key | key in sorted ensures ',' !in key {
      KeyHasNoComma(key);
    }
    JoinSplits(sorted);
    var start := "irc-e2e:v2:list:" + Decimal(version) + ":";
    assert ListTextIn(order, version, keys).value == start + Join(sorted);
  }

  /** A list text: the prefix, the plain version, and the keys in ascending plain text with commas between them. */
  lemma ListTextMeans(version: nat, keys: seq<string>)
    ensures ListText(version, keys).Ok? <==> 1 <= version <= 2_147_483_647 && ValidKeys(keys)
    ensures ListText(version, keys).Ok? ==> exists sorted ::
      && multiset(sorted) == multiset(keys) && PlainAscending(sorted)
      && Spelled(ListText(version, keys).value, "irc-e2e:v2:list:", version, sorted)
    ensures !(1 <= version <= 2_147_483_647) ==> ListText(version, keys) == Err(BadVersion)
    ensures 1 <= version <= 2_147_483_647 && CheckListDevices(keys).Err? ==>
      ListText(version, keys) == Err(CheckListDevices(keys).error)
  {
    CheckListDevicesMeans(keys);
    if ListText(version, keys).Ok? {
      ListIsSpelled(PlainText, version, keys);
      SortedIsPlain(keys);
    }
  }

  /** The texts of a certificate and of an id block. */
  lemma OtherTextsMean(version: nat, device: string, curve: string)
    ensures DeviceText(version, device) ==
      if !(1 <= version <= 2_147_483_647) then Err(BadVersion)
      else if !IsKeyText(device) then Err(BadKey)
      else Ok("irc-e2e:v2:dev:" + (Decimal(version) + ":" + device))
    ensures IdText(curve, device) == "irc-e2e:v2:id:" + (curve + ":" + device)
  {
  }

  /** The keys of a list in the order of the contract. */
  lemma SortedKeysMean(keys: seq<string>, sorted: seq<string>)
    ensures SortListKeys(keys) == Ok(sorted) <==>
      ValidKeys(keys) && multiset(sorted) == multiset(keys) && PlainAscending(sorted)
  {
    CheckListDevicesMeans(keys);
    if ValidKeys(keys) {
      SortedIsPlain(keys);
      if multiset(sorted) == multiset(keys) && PlainAscending(sorted) {
        PlainIsSorted(keys, sorted);
      }
    }
  }
}
