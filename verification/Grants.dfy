/** The grant that the holder of a master key builds for a new device, and its check by that device. */
module Grants {
  import opened Base
  import opened Orders
  import opened Devices
  import opened PairingTypes
  import opened WireTexts
  import C = ListChecks
  import M = ListMigration
  import W = Wire

  function BuildGrant(master: Account, current: SignedList, device: string): Result<Grant, FlowError> {
    if !W.IsKeyText(device) then Err(MessageIsBad)
    else if VerifySignedList(current.version, current.keys, master.ed25519, current.signature).Err? then Err(NoIdentity)
    else if current.version + 1 > W.MAX_VERSION then Err(ListFull)
    else if device !in current.keys && |current.keys| >= W.MAX_ENROLLED_DEVICES then Err(ListFull)
    else
      var version := current.version + 1;
      var keys := GrownKeys(current, device);
      if W.CheckListDevices(keys).Err? then Err(ListFull)
      else
        match BuildListSignature(version, keys, text => Sign(master, text))
        case Err(_) => Err(BadGrant)
        case Ok(signature) =>
          match BuildCertificate(version, device, master.ed25519, text => Sign(master, text))
          case Err(_) => Err(BadGrant)
          case Ok(certificate) =>
            Ok(Grant(master.ed25519, certificate, SignedList(version, Sort(PlainText, keys), signature)))
  }

  /** What a grant for `device` holds after the list `current` of its master. */
  ghost predicate GrantFor(grant: Grant, master: Account, current: SignedList, device: string) {
    && grant.master == master.ed25519
    && grant.list.version == current.version + 1
    && (forall key :: key in grant.list.keys <==> key in current.keys || key == device)
    && (device !in current.keys ==> |grant.list.keys| == |current.keys| + 1 <= W.MAX_ENROLLED_DEVICES)
    && M.NewListRequest(grant.master, grant.list).Ok?
    && grant.certificate.firstListVersion == grant.list.version
    && grant.certificate.device == device && grant.certificate.master == grant.master
    && VerifyCertificate(grant.certificate, [grant.master]).Ok?
  }

  lemma GrownKeysAreValid(keys: seq<string>, device: string)
    requires W.ValidKeys(keys) && W.IsKeyText(device)
    requires device !in keys && |keys| < W.MAX_ENROLLED_DEVICES
    ensures W.ValidKeys(keys + [device])
  {
  }

  /** The keys of the list after the one of the holder. */
  function GrownKeys(current: SignedList, device: string): seq<string> {
    if device in current.keys then current.keys else current.keys + [device]
  }

  lemma BuiltList(master: Account, current: SignedList, device: string)
    requires BuildGrant(master, current, device).Ok?
    ensures var grant, keys := BuildGrant(master, current, device).value, GrownKeys(current, device);
      && BuildListSignature(current.version + 1, keys, text => Sign(master, text)).Ok?
      && grant.master == master.ed25519 && grant.list.version == current.version + 1
      && grant.list.keys == Sort(PlainText, keys)
      && grant.list.signature == BuildListSignature(current.version + 1, keys, text => Sign(master, text)).value
  {
  }

  lemma BuiltGrantVerifies(master: Account, current: SignedList, device: string)
    requires BuildGrant(master, current, device).Ok?
    ensures var grant := BuildGrant(master, current, device).value;
      && VerifySignedList(grant.list.version, grant.list.keys, grant.master, grant.list.signature).Ok?
      && grant.list.keys == Sort(PlainText, grant.list.keys)
  {
    var keys := GrownKeys(current, device);
    BuiltList(master, current, device);
    BuiltSignatureVerifies(master, current.version + 1, keys, Sort(PlainText, keys));
    SortIdempotent(PlainText, keys);
  }

  /** When the holder gives a grant. */
  ghost predicate Grantable(master: Account, current: SignedList, device: string) {
    && W.IsKeyText(device)
    && VerifySignedList(current.version, current.keys, master.ed25519, current.signature).Ok?
    && current.version < W.MAX_VERSION
    && (device in current.keys || |current.keys| < W.MAX_ENROLLED_DEVICES)
  }

  lemma GrownKeysPass(master: Account, current: SignedList, device: string)
    requires Grantable(master, current, device)
    ensures W.CheckListDevices(GrownKeys(current, device)).Ok?
  {
    VerifiedListMeans(current.version, current.keys, master.ed25519, current.signature);
    if device !in current.keys {
      GrownKeysAreValid(current.keys, device);
    }
    W.CheckListDevicesMeans(GrownKeys(current, device));
  }

  lemma BuiltWhenGrantable(master: Account, current: SignedList, device: string)
    ensures BuildGrant(master, current, device).Ok? <==> Grantable(master, current, device)
  {
    if Grantable(master, current, device) {
      GrownKeysPass(master, current, device);
    }
  }

  lemma BuiltKeys(master: Account, current: SignedList, device: string)
    requires BuildGrant(master, current, device).Ok?
    ensures var keys := BuildGrant(master, current, device).value.list.keys;
      && (forall key :: key in keys <==> key in current.keys || key == device)
      && (device !in current.keys ==> |keys| == |current.keys| + 1)
  {
    var keys := GrownKeys(current, device);
    var sorted := Sort(PlainText, keys);
    BuiltList(master, current, device);
    forall key ensures key in sorted <==> key in keys {
      assert key in sorted <==> key in multiset(sorted);
      assert key in keys <==> key in multiset(keys);
    }
  }

  lemma BuiltRequest(master: Account, current: SignedList, device: string)
    requires BuildGrant(master, current, device).Ok?
    ensures var grant := BuildGrant(master, current, device).value;
      M.NewListRequest(grant.master, grant.list).Ok?
  {
    var grant := BuildGrant(master, current, device).value;
    BuiltGrantVerifies(master, current, device);
    M.RequestMeans(grant.master, grant.list);
  }

  lemma BuiltCertificate(master: Account, current: SignedList, device: string)
    requires BuildGrant(master, current, device).Ok?
    ensures var grant := BuildGrant(master, current, device).value;
      && grant.master == master.ed25519
      && grant.list.version == current.version + 1
      && grant.certificate.firstListVersion == grant.list.version
      && grant.certificate.device == device && grant.certificate.master == grant.master
      && VerifyCertificate(grant.certificate, [grant.master]).Ok?
  {
  }

  /**
   * The holder gives a grant exactly for a valid device key, when its own list is signed by its master,
   * has a next version and either holds the device or has room for a third one. The grant adds the device
   * and nothing else, may be published, and its certificate verifies under the master.
   */
  lemma BuildGrantMeans(master: Account, current: SignedList, device: string)
    ensures BuildGrant(master, current, device).Ok? <==> Grantable(master, current, device)
    ensures BuildGrant(master, current, device).Ok? ==>
      GrantFor(BuildGrant(master, current, device).value, master, current, device)
  {
    BuiltWhenGrantable(master, current, device);
    if BuildGrant(master, current, device).Ok? {
      BuiltKeys(master, current, device);
      BuiltRequest(master, current, device);
      BuiltCertificate(master, current, device);
    }
  }

  /** Which accesses to the store of the joiner work. */
  datatype Access = Access(readMaster: bool, saveList: bool, saveCertificate: bool)

  function CheckGrant(store: Store, own: string, grant: Grant, access: Access): Result<(), FlowError> {
    var list, certificate := grant.list, grant.certificate;
    if VerifySignedList(list.version, list.keys, grant.master, list.signature).Err? then Err(BadGrant)
    else if W.CheckListDevices(list.keys).Err? then Err(BadGrant)
    else if !(own in list.keys && certificate.device == own && certificate.master == grant.master
              && certificate.firstListVersion == list.version) then Err(BadGrant)
    else if VerifyCertificate(certificate, [grant.master]).Err? then Err(BadGrant)
    else if !access.readMaster then Err(StoreFailed)
    else if store.master.Some? && store.master.value.ed25519 != grant.master then Err(BadGrant)
    else Ok(())
  }

  /** Checks a grant, then saves its list and its certificate. */
  function ApplyGrant(store: Store, own: string, grant: Grant, access: Access): (Store, Result<(), FlowError>) {
    match CheckGrant(store, own, grant, access)
    case Err(e) => (store, Err(e))
    case Ok(_) =>
      if !access.saveList then (store, Err(StoreFailed))
      else if !access.saveCertificate then (store.(list := Some(grant.list)), Err(StoreFailed))
      else (store.(list := Some(grant.list), certificate := Some(grant.certificate)), Ok(()))
  }

  /** The checks of a grant for the device `own` in a store that may hold a master. */
  ghost predicate GrantChecks(store: Store, own: string, grant: Grant) {
    && VerifySignedList(grant.list.version, grant.list.keys, grant.master, grant.list.signature).Ok?
    && own in grant.list.keys
    && grant.certificate.device == own && grant.certificate.master == grant.master
    && grant.certificate.firstListVersion == grant.list.version
    && VerifyCertificate(grant.certificate, [grant.master]).Ok?
    && (store.master.Some? ==> store.master.value.ed25519 == grant.master)
  }

  /**
   * The joiner keeps a grant exactly when every check passes and the store works. Then list and
   * certificate of the grant are in the store. A grant that fails a check changes nothing.
   */
  lemma ApplyGrantMeans(store: Store, own: string, grant: Grant, access: Access)
    ensures var (store', r) := ApplyGrant(store, own, grant, access);
      && (r.Ok? <==> GrantChecks(store, own, grant) && access == Access(true, true, true))
      && (r.Ok? ==> store' == store.(list := Some(grant.list), certificate := Some(grant.certificate)))
      && (!GrantChecks(store, own, grant) ==> store' == store)
  {
    VerifiedListMeans(grant.list.version, grant.list.keys, grant.master, grant.list.signature);
    W.CheckListDevicesMeans(grant.list.keys);
  }

  /** A device accepts the grant that the holder built for it, unless it holds a master of its own. */
  lemma BuiltGrantApplies(master: Account, current: SignedList, device: string, store: Store)
    requires BuildGrant(master, current, device).Ok?
    ensures ApplyGrant(store, device, BuildGrant(master, current, device).value, Access(true, true, true)).1.Ok?
      <==> store.master.None? || store.master.value.ed25519 == master.ed25519
  {
    var grant := BuildGrant(master, current, device).value;
    BuildGrantMeans(master, current, device);
    BuiltGrantVerifies(master, current, device);
    ApplyGrantMeans(store, device, grant, Access(true, true, true));
  }

  /**
   * What a grant holds: the next version, the keys in ascending plain text with the signature of the master over
   * that list, and the certificate of the device for that version with the signature of the master over its text.
   */
  lemma GrantIs(master: Account, current: SignedList, device: string)
    requires BuildGrant(master, current, device).Ok?
    ensures var grant := BuildGrant(master, current, device).value;
      && grant.master == master.ed25519
      && grant.list.version == current.version + 1
      && (forall key :: key in grant.list.keys <==> key in current.keys || key == device)
      && PlainAscending(grant.list.keys)
      && C.SignedBy(master.ed25519, current.version + 1, grant.list.keys, grant.list.signature)
      && grant.certificate == Certificate(current.version + 1, device, master.ed25519,
                                Sig(master.ed25519, C.CertificateText(current.version + 1, device)))
  {
    var grant := BuildGrant(master, current, device).value;
    BuiltKeys(master, current, device);
    BuiltList(master, current, device);
    GrantListAscends(grant, master, current, device);
    GrantListIsSigned(grant, master, current, device);
    GrantCertificateIs(master, current, device);
  }

  lemma GrantListAscends(grant: Grant, master: Account, current: SignedList, device: string)
    requires BuildGrant(master, current, device) == Ok(grant)
    ensures PlainAscending(grant.list.keys)
  {
    BuiltRequest(master, current, device);
    C.PutRequestMeans(grant.master, grant.list);
  }

  lemma GrantListIsSigned(grant: Grant, master: Account, current: SignedList, device: string)
    requires BuildGrant(master, current, device) == Ok(grant)
    ensures C.SignedBy(master.ed25519, grant.list.version, grant.list.keys, grant.list.signature)
  {
    BuiltGrantVerifies(master, current, device);
    BuiltList(master, current, device);
    C.SignedListMeans(grant.list.version, grant.list.keys, grant.master, grant.list.signature);
  }

  lemma GrantCertificateIs(master: Account, current: SignedList, device: string)
    requires BuildGrant(master, current, device).Ok?
    ensures BuildGrant(master, current, device).value.certificate ==
      Certificate(current.version + 1, device, master.ed25519, Sig(master.ed25519, C.CertificateText(current.version + 1, device)))
  {
    var version := current.version + 1;
    C.BuiltCertificateMeans(version, device, master.ed25519, text => Sign(master, text));
    assert BuildCertificate(version, device, master.ed25519, text => Sign(master, text))
        == Ok(BuildGrant(master, current, device).value.certificate);
  }

  /** Why there is no grant: a bad key of the device, then a list that its master did not sign, then no room. */
  lemma NoGrantMeans(master: Account, current: SignedList, device: string)
    ensures var r := BuildGrant(master, current, device);
      var verified := VerifySignedList(current.version, current.keys, master.ed25519, current.signature).Ok?;
      && (r == Err(MessageIsBad) <==> !W.IsKeyText(device))
      && (r == Err(NoIdentity) <==> W.IsKeyText(device) && !verified)
      && (r == Err(ListFull) <==>
            && W.IsKeyText(device) && verified
            && (current.version == 2_147_483_647 || (device !in current.keys && |current.keys| >= 3)))
      && (r.Err? ==> r.error in {MessageIsBad, NoIdentity, ListFull})
  {
    BuiltWhenGrantable(master, current, device);
    if W.IsKeyText(device) && VerifySignedList(current.version, current.keys, master.ed25519, current.signature).Ok? {
      VerifiedListMeans(current.version, current.keys, master.ed25519, current.signature);
    }
  }

  /**
   * What a grant leaves in the store of the joiner: nothing of a bad one, which is told before a store that fails;
   * of a good one the list first, and the certificate only after it.
   */
  lemma GrantSaved(store: Store, own: string, grant: Grant, access: Access)
    ensures ApplyGrant(store, own, grant, access) ==
      if !GrantChecks(store.(master := None), own, grant) then (store, Err(BadGrant))
      else if !access.readMaster then (store, Err(StoreFailed))
      else if store.master.Some? && store.master.value.ed25519 != grant.master then (store, Err(BadGrant))
      else if !access.saveList then (store, Err(StoreFailed))
      else if !access.saveCertificate then (store.(list := Some(grant.list)), Err(StoreFailed))
      else (store.(list := Some(grant.list), certificate := Some(grant.certificate)), Ok(()))
  {
    VerifiedListMeans(grant.list.version, grant.list.keys, grant.master, grant.list.signature);
    W.CheckListDevicesMeans(grant.list.keys);
  }
}
