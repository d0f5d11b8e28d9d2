/** When lists and certificates pass their checks and how they fail, without the steps of the checks. */
module ListChecks {
  import opened Base
  import opened Devices
  import opened ListMigration
  import opened Orders
  import opened WireTexts
  import K = KeyBytes
  import Text
  import W = Wire

  // ---- signed lists ----

  /** `text` is the text of a list: its keys in ascending plain text. */
  ghost predicate IsListText(text: string, version: nat, keys: seq<string>) {
    exists sorted :: multiset(sorted) == multiset(keys) && PlainAscending(sorted)
      && Spelled(text, "irc-e2e:v2:list:", version, sorted)
  }

  /** The bytes that the key `a` stands for come before those of `b`. */
  ghost predicate BytesBefore(a: string, b: string) {
    exists x, y :: K.Encodes(a, x) && K.Encodes(b, y) && K.DigitsBefore(x, y)
  }

  ghost predicate BytesAscending(keys: seq<string>) {
    forall i, j :: 0 <= i < j < |keys| ==> BytesBefore(keys[i], keys[j])
  }

  /** `text` is the text of a list of the older client: its keys in the order of their bytes. */
  ghost predicate IsLegacyText(text: string, version: nat, keys: seq<string>) {
    exists sorted :: multiset(sorted) == multiset(keys) && BytesAscending(sorted)
      && Spelled(text, "irc-e2e:v2:list:", version, sorted)
  }

  /** Two texts of the same start and the same rest are one text. */
  lemma SpelledOnce(a: string, b: string, prefix: string, version: nat, sorted: seq<string>)
    requires sorted != [] && Spelled(a, prefix, version, sorted) && Spelled(b, prefix, version, sorted)
    ensures a == b
  {
    var start := prefix + Text.Decimal(version) + ":";
    Text.SplitJoins(a[|start|..], ',');
    Text.SplitJoins(b[|start|..], ',');
    assert a == start + a[|start|..] && b == start + b[|start|..];
  }

  lemma {:induction false} MembersAscend(keys: seq<string>, other: seq<string>)
    requires multiset(keys) == multiset(other)
    ensures forall key :: key in keys <==> key in other
  {
    forall key ensures key in keys <==> key in other {
      assert key in keys <==> key in multiset(keys);
      assert key in other <==> key in multiset(other);
    }
  }

  /** The text of a valid list is the only text of its kind. */
  lemma ListTextIs(version: nat, keys: seq<string>, text: string)
    requires W.ListText(version, keys).Ok?
    ensures IsListText(text, version, keys) <==> text == W.ListText(version, keys).value
  {
    W.CheckListDevicesMeans(keys);
    SortedIsPlain(keys);
    ListIsSpelled(PlainText, version, keys);
    if IsListText(text, version, keys) {
      var sorted :| multiset(sorted) == multiset(keys) && PlainAscending(sorted)
        && Spelled(text, "irc-e2e:v2:list:", version, sorted);
      PlainIsSorted(keys, sorted);
      SpelledOnce(text, W.ListText(version, keys).value, "irc-e2e:v2:list:", version, sorted);
    }
  }

  lemma BytesMean(a: string, b: string)
    requires W.IsKeyText(a) && W.IsKeyText(b)
    ensures Less(RawBytes, a, b) <==> BytesBefore(a, b)
  {
    var x := K.KeyHasBytes(a);
    var y := K.KeyHasBytes(b);
    K.RawBytesMean(a, b, x, y);
  }

  lemma SortedIsByBytes(keys: seq<string>, sorted: seq<string>)
    requires W.ValidKeys(keys) && multiset(sorted) == multiset(keys)
    ensures BytesAscending(sorted) <==> sorted == Sort(RawBytes, keys)
  {
    W.ValidKeysByMultiset(keys, sorted);
    SortAscends(RawBytes, keys);
    forall i, j | 0 <= i < j < |sorted| ensures Less(RawBytes, sorted[i], sorted[j]) <==> BytesBefore(sorted[i], sorted[j]) {
      BytesMean(sorted[i], sorted[j]);
    }
    if BytesAscending(sorted) {
      AscendingUnique(RawBytes, sorted, Sort(RawBytes, keys));
    }
    if sorted == Sort(RawBytes, keys) {
      forall i, j | 0 <= i < j < |sorted| ensures BytesBefore(sorted[i], sorted[j]) {
        assert sorted[i] != sorted[j];
      }
    }
  }

  /** So is the text of the older client. */
  lemma LegacyTextIs(version: nat, keys: seq<string>, text: string)
    requires W.LegacyListText(version, keys).Ok?
    ensures IsLegacyText(text, version, keys) <==> text == W.LegacyListText(version, keys).value
  {
    W.CheckListDevicesMeans(keys);
    SortedIsByBytes(keys, Sort(RawBytes, keys));
    ListIsSpelled(RawBytes, version, keys);
    if IsLegacyText(text, version, keys) {
      var sorted :| multiset(sorted) == multiset(keys) && BytesAscending(sorted)
        && Spelled(text, "irc-e2e:v2:list:", version, sorted);
      SortedIsByBytes(keys, sorted);
      SpelledOnce(text, W.LegacyListText(version, keys).value, "irc-e2e:v2:list:", version, sorted);
    }
  }

  /** The master signed the current text of this list. */
  ghost predicate SignedBy(master: string, version: nat, keys: seq<string>, signature: Signature) {
    signature.Sig? && signature.signer == master && IsListText(signature.text, version, keys)
  }

  /** The master signed the text of this list that the older client made. */
  ghost predicate LegacySignedBy(master: string, version: nat, keys: seq<string>, signature: Signature) {
    signature.Sig? && signature.signer == master && IsLegacyText(signature.text, version, keys)
  }

  ghost predicate GoodList(version: nat, keys: seq<string>) {
    1 <= version <= 2_147_483_647 && W.ValidKeys(keys)
  }

  /** The answer of the check of a signed list, with its faults in their order. */
  lemma SignedListMeans(version: nat, keys: seq<string>, master: string, signature: Signature)
    ensures VerifySignedList(version, keys, master, signature) ==
      if !(1 <= version <= 2_147_483_647) then Err(WireFault(W.BadVersion))
      else if W.CheckListDevices(keys).Err? then Err(WireFault(W.CheckListDevices(keys).error))
      else if !W.IsKeyText(master) then Err(WireFault(W.BadKey))
      else if signature.NotSignatureText? then Err(WireFault(W.BadSignature))
      else if SignedBy(master, version, keys, signature) then Ok(())
      else Err(BadSignature)
  {
    ListTextMeans(version, keys);
    W.CheckListDevicesMeans(keys);
    if W.ListText(version, keys).Ok? {
      ListTextIs(version, keys, W.ListText(version, keys).value);
      if signature.Sig? {
        ListTextIs(version, keys, signature.text);
      }
    }
  }

  /** The two orders of a good list, and of no other list. */
  lemma OrderMeans(version: nat, keys: seq<string>, master: string, signature: Signature)
    ensures ListOrderOf(version, keys, master, signature) == Ok(Current) <==>
      GoodList(version, keys) && W.IsKeyText(master) && SignedBy(master, version, keys, signature)
    ensures ListOrderOf(version, keys, master, signature) == Ok(Legacy) <==>
      && GoodList(version, keys) && W.IsKeyText(master)
      && LegacySignedBy(master, version, keys, signature) && !SignedBy(master, version, keys, signature)
    ensures ListOrderOf(version, keys, master, signature).Err? ==>
      VerifySignedList(version, keys, master, signature) == Err(ListOrderOf(version, keys, master, signature).error)
  {
    SignedListMeans(version, keys, master, signature);
    W.CheckListDevicesMeans(keys);
    if GoodList(version, keys) && signature.Sig? {
      LegacyTextIs(version, keys, signature.text);
    }
  }

  /** The list put route: the body holds the list as it is, and its faults come in their order. */
  lemma PutRequestMeans(master: string, list: SignedList)
    ensures NewListRequest(master, list) ==
      if !W.IsKeyText(master) then Err(W.BadKey)
      else if !PlainAscending(list.keys) then Err(W.BadDeviceCount)
      else if W.CheckListDevices(list.keys).Err? then Err(W.CheckListDevices(list.keys).error)
      else if !(1 <= list.version <= 2_147_483_647) then Err(W.BadVersion)
      else if !SignedBy(master, list.version, list.keys, list.signature) then Err(W.BadSignature)
      else Ok(ListRequest(master, list.version, list.keys, list.signature))
  {
    SignedListMeans(list.version, list.keys, master, list.signature);
    PlainWindows(list.keys);
  }

  lemma PlainWindows(keys: seq<string>)
    ensures Windows(keys) <==> PlainAscending(keys)
  {
    if Windows(keys) {
      forall i, j | 0 <= i < j < |keys| ensures PlainBefore(keys[i], keys[j]) {
        WindowsAscend(keys, i, j);
        PlainTextMeans(keys[i], keys[j]);
      }
    }
    if PlainAscending(keys) {
      forall i | 0 <= i < |keys| - 1 ensures Less(PlainText, keys[i], keys[i + 1]) {
        PlainTextMeans(keys[i], keys[i + 1]);
      }
    }
  }

  /** A migrated list: the same version and keys, in ascending plain text, with the signature over that text. */
  lemma MigratedListIs(master: Account, list: SignedList)
    requires ListOrderOf(list.version, list.keys, master.ed25519, list.signature) == Ok(Legacy)
    ensures var r := MigrateOwnList(master, list);
      && r.Ok? && r.value.Some? && r.value.value.version == list.version
      && multiset(r.value.value.keys) == multiset(list.keys) && PlainAscending(r.value.value.keys)
      && SignedBy(master.ed25519, list.version, list.keys, r.value.value.signature)
  {
    OrderMeans(list.version, list.keys, master.ed25519, list.signature);
    W.CheckListDevicesMeans(list.keys);
    SortedIsPlain(list.keys);
    ListTextIs(list.version, list.keys, W.ListText(list.version, list.keys).value);
  }

  /**
   * The migration of an own list: a list signed in the current order stays, one signed in the older order only is
   * signed again as `MigratedListIs` says, and may be published; any other list is the error of its check.
   */
  lemma MigrationIs(master: Account, list: SignedList)
    ensures var r := MigrateOwnList(master, list);
      var good := GoodList(list.version, list.keys);
      && (r == Ok(None) <==> good && SignedBy(master.ed25519, list.version, list.keys, list.signature))
      && (r.Ok? && r.value.Some? <==>
            && good && LegacySignedBy(master.ed25519, list.version, list.keys, list.signature)
            && !SignedBy(master.ed25519, list.version, list.keys, list.signature))
      && (r.Ok? && r.value.Some? ==> NewListRequest(master.ed25519, r.value.value).Ok?)
      && (r.Err? ==> VerifySignedList(list.version, list.keys, master.ed25519, list.signature) == Err(r.error))
  {
    OrderMeans(list.version, list.keys, master.ed25519, list.signature);
    MigrationMeans(master, list);
  }

  /** What a signer is given to sign for a list, and what comes of its answer. */
  lemma BuiltListMeans(version: nat, keys: seq<string>, sign: string -> Signature)
    ensures BuildListSignature(version, keys, sign) ==
      if !(1 <= version <= 2_147_483_647) then Err(WireFault(W.BadVersion))
      else if W.CheckListDevices(keys).Err? then Err(WireFault(W.CheckListDevices(keys).error))
      else if sign(W.ListText(version, keys).value).NotSignatureText? then Err(WireFault(W.BadSignature))
      else Ok(sign(W.ListText(version, keys).value))
    ensures W.ListText(version, keys).Ok? ==> IsListText(W.ListText(version, keys).value, version, keys)
  {
    ListTextMeans(version, keys);
  }

  // ---- certificates ----

  /** The text of a certificate. */
  function CertificateText(version: nat, device: string): string {
    "irc-e2e:v2:dev:" + (Text.Decimal(version) + ":" + device)
  }

  /** The answer of the check of a certificate, with its faults in their order. */
  lemma CertificateMeans(cert: Certificate, approved: seq<string>)
    ensures VerifyCertificate(cert, approved) ==
      if !(1 <= cert.firstListVersion <= 2_147_483_647) then Err(WireFault(W.BadVersion))
      else if !W.IsKeyText(cert.device) then Err(WireFault(W.BadKey))
      else if !W.IsKeyText(cert.master) then Err(WireFault(W.BadKey))
      else if cert.signature.NotSignatureText? then Err(WireFault(W.BadSignature))
      else if cert.master !in approved then Err(UnknownSigner)
      else if cert.signature == Sig(cert.master, CertificateText(cert.firstListVersion, cert.device)) then Ok(())
      else Err(BadSignature)
  {
    OtherTextsMean(cert.firstListVersion, cert.device, "");
  }

  /** A certificate that is built holds what it was asked for, and the signature over its text. */
  lemma BuiltCertificateMeans(first: nat, device: string, master: string, sign: string -> Signature)
    ensures BuildCertificate(first, device, master, sign) ==
      if !(1 <= first <= 2_147_483_647) then Err(WireFault(W.BadVersion))
      else if !W.IsKeyText(device) || !W.IsKeyText(master) then Err(WireFault(W.BadKey))
      else if sign(CertificateText(first, device)).NotSignatureText? then Err(WireFault(W.BadSignature))
      else Ok(Certificate(first, device, master, sign(CertificateText(first, device))))
  {
    OtherTextsMean(first, device, "");
  }

  // ---- the id block of a remote device ----

  /** Every check of an id block passes. */
  ghost predicate GoodBlock(cert: DeviceCertificate, approved: seq<string>) {
    && W.IsKeyText(cert.curve25519) && W.IsKeyText(cert.master) && cert.did == Did(cert.master) && cert.master in approved
    && cert.signature == Sig(cert.master, "irc-e2e:v2:id:" + (cert.curve25519 + ":" + cert.master))
  }

  /** The first fault of an id block that fails a check. */
  function BlockFault(cert: DeviceCertificate, approved: seq<string>): E2eError {
    if !W.IsKeyText(cert.curve25519) || !W.IsKeyText(cert.master) then WireFault(W.BadKey)
    else if cert.signature.NotSignatureText? then WireFault(W.BadSignature)
    else if cert.did != Did(cert.master) then DeviceMismatch
    else if cert.master !in approved then UnknownSigner
    else BadSignature
  }

  /** A device is accepted exactly when every check passes, with its own names and keys; else the first fault is told. */
  lemma PeerDeviceMeans(cert: DeviceCertificate, approved: seq<string>)
    ensures AcceptPeerDevice(cert, approved).Ok? <==> GoodBlock(cert, approved)
    ensures AcceptPeerDevice(cert, approved).Ok? ==>
      var p := AcceptPeerDevice(cert, approved).value;
      p.did == cert.did && p.ed25519 == cert.master && p.curve25519 == cert.curve25519
    ensures AcceptPeerDevice(cert, approved).Err? ==> AcceptPeerDevice(cert, approved).error == BlockFault(cert, approved)
  {
    OtherTextsMean(1, cert.master, cert.curve25519);
  }

  // ---- the newest list of a user ----

  /** The fault of a list that does not go into the state. */
  function StateFault(version: nat, keys: seq<string>): E2eError {
    if !(1 <= version <= 2_147_483_647) then WireFault(W.BadVersion)
    else if W.CheckListDevices(keys).Err? then WireFault(W.CheckListDevices(keys).error)
    else StaleList
  }

  /** The state after a list is that list or the state before it; a stale list and a bad one change nothing. */
  lemma ListStateMeans(stored: StoredList, version: nat, keys: seq<string>)
    ensures var (next, r) := ApplyList(stored, version, keys);
      && (r == Ok(W.Replace) <==> GoodList(version, keys) && (stored.None? || version > stored.value.0))
      && (r == Ok(W.NoOp) <==>
            GoodList(version, keys) && stored.Some? && version == stored.value.0 && multiset(keys) == multiset(stored.value.1))
      && next == (if r == Ok(W.Replace) then Some((version, keys)) else stored)
      && r != Ok(W.Ignore)
      && (r.Err? ==> r.error == StateFault(version, keys))
      && VersionOf(None) == 0 && VersionOf(Some((version, keys))) == version
  {
    W.CheckListDevicesMeans(keys);
    W.DecideListMeans(stored, version, keys);
  }
}
