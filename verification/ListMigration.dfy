/** Lists that an older build signed over the raw byte order, and the request that publishes a list. */
module ListMigration {
  import opened Base
  import opened Orders
  import opened Devices
  import W = Wire

  datatype ListOrder = Current | Legacy

  /** The signature verifies over the raw byte order and not over the current one. */
  predicate HasLegacyOrder(version: nat, keys: seq<string>, master: string, signature: Signature) {
    VerifySignedList(version, keys, master, signature) == Err(BadSignature) &&
    match W.LegacyListText(version, keys)
    case Err(_) => false
    case Ok(text) => VerifySignature(master, signature, text).Ok?
  }

  function ListOrderOf(version: nat, keys: seq<string>, master: string, signature: Signature): Result<ListOrder, E2eError> {
    match VerifySignedList(version, keys, master, signature)
    case Ok(_) => Ok(Current)
    case Err(BadSignature) => if HasLegacyOrder(version, keys, master, signature) then Ok(Legacy) else Err(BadSignature)
    case Err(e) => Err(e)
  }

  function MigrateOwnList(master: Account, list: SignedList): Result<Option<SignedList>, E2eError> {
    match ListOrderOf(list.version, list.keys, master.ed25519, list.signature)
    case Err(e) => Err(e)
    case Ok(Current) => Ok(None)
    case Ok(Legacy) =>
      match BuildListSignature(list.version, list.keys, text => Sign(master, text))
      case Err(e) => Err(e)
      case Ok(signature) =>
        match W.SortListKeys(list.keys)
        case Err(e) => Err(WireFault(e))
        case Ok(keys) => Ok(Some(SignedList(list.version, keys, signature)))
  }

  // ---- the request body of the list put route ----

  datatype ListRequest = ListRequest(master: string, ver: nat, devices: seq<string>, sig: Signature)

  /** The neighbours of the list are strictly ascending. */
  predicate Windows(keys: seq<string>) {
    forall i :: 0 <= i < |keys| - 1 ==> Less(PlainText, keys[i], keys[i + 1])
  }

  function NewListRequest(master: string, list: SignedList): Result<ListRequest, W.WireError> {
    if !W.IsKeyText(master) then Err(W.BadKey)
    else if !Windows(list.keys) then Err(W.BadDeviceCount)
    else match W.CheckListDevices(list.keys)
    case Err(e) => Err(e)
    case Ok(_) =>
      match VerifySignedList(list.version, list.keys, master, list.signature)
      case Err(WireFault(e)) => Err(e)
      case Err(_) => Err(W.BadSignature)
      case Ok(_) => Ok(ListRequest(master, list.version, list.keys, list.signature))
  }

  lemma {:induction false} WindowsAscend(keys: seq<string>, i: nat, j: nat)
    requires Windows(keys) && i < j < |keys|
    ensures Less(PlainText, keys[i], keys[j])
  {
    if i + 1 < j {
      WindowsAscend(keys, i, j - 1);
      assert Less(PlainText, keys[j - 1], keys[j - 1 + 1]);
      LessTransitive(PlainText, keys[i], keys[j - 1], keys[j]);
    }
  }

  /** Distinct keys pass the neighbour check exactly in the sorted order. */
  lemma WindowsMeansSorted(keys: seq<string>)
    requires Distinct(keys)
    ensures Windows(keys) <==> keys == Sort(PlainText, keys)
  {
    if Windows(keys) {
      forall i, j | 0 <= i < j < |keys| ensures Less(PlainText, keys[i], keys[j]) {
        WindowsAscend(keys, i, j);
      }
      SortAscends(PlainText, keys);
      AscendingUnique(PlainText, keys, Sort(PlainText, keys));
    }
    if keys == Sort(PlainText, keys) {
      SortAscends(PlainText, keys);
    }
  }

  /** A list leaves the client exactly when its master signed it and its keys are in the sorted order. */
  lemma RequestMeans(master: string, list: SignedList)
    ensures NewListRequest(master, list).Ok? <==>
      && VerifySignedList(list.version, list.keys, master, list.signature).Ok?
      && list.keys == Sort(PlainText, list.keys)
  {
    VerifiedListMeans(list.version, list.keys, master, list.signature);
    W.CheckListDevicesMeans(list.keys);
    if W.ValidKeys(list.keys) {
      WindowsMeansSorted(list.keys);
    }
  }

  lemma TextsDiffer(version: nat, keys: seq<string>)
    requires W.ListText(version, keys).Ok?
    ensures W.ListText(version, keys) == W.LegacyListText(version, keys) <==> Sort(PlainText, keys) == Sort(RawBytes, keys)
  {
    if W.ListText(version, keys) == W.LegacyListText(version, keys) {
      W.ListTextInjective(PlainText, version, keys, RawBytes, version, keys);
    }
  }

  lemma BothOrdersMean(version: nat, keys: seq<string>, master: string, signature: Signature)
    requires W.ListText(version, keys).Ok? && W.IsKeyText(master)
    ensures W.LegacyListText(version, keys).Ok?
    ensures VerifySignedList(version, keys, master, signature) ==
      if signature.NotSignatureText? then Err(WireFault(W.BadSignature))
      else if signature == Sig(master, W.ListText(version, keys).value) then Ok(())
      else Err(BadSignature)
    ensures HasLegacyOrder(version, keys, master, signature) <==>
      && signature != Sig(master, W.ListText(version, keys).value)
      && signature == Sig(master, W.LegacyListText(version, keys).value)
  {
  }

  /** The two orders are told apart by the text that the master signed; no other list has an order. */
  lemma ListOrderMeans(version: nat, keys: seq<string>, master: string, signature: Signature)
    requires W.ListText(version, keys).Ok? && W.IsKeyText(master)
    ensures ListOrderOf(version, keys, master, signature) == Ok(Current)
      <==> signature == Sig(master, W.ListText(version, keys).value)
    ensures ListOrderOf(version, keys, master, signature) == Ok(Legacy)
      <==> signature == Sig(master, W.LegacyListText(version, keys).value) && Sort(PlainText, keys) != Sort(RawBytes, keys)
  {
    TextsDiffer(version, keys);
    BothOrdersMean(version, keys, master, signature);
  }

  /**
   * Migration signs again exactly the lists of the old order. The new list has the version and the set of
   * keys of the old one, may be published, and is not migrated again.
   */
  lemma MigrationMeans(master: Account, list: SignedList)
    ensures var r := MigrateOwnList(master, list);
      && (r.Ok? <==> ListOrderOf(list.version, list.keys, master.ed25519, list.signature).Ok?)
      && (r.Ok? && r.value.Some? ==>
            var next := r.value.value;
            && ListOrderOf(list.version, list.keys, master.ed25519, list.signature) == Ok(Legacy)
            && next.version == list.version && multiset(next.keys) == multiset(list.keys)
            && NewListRequest(master.ed25519, next).Ok?
            && MigrateOwnList(master, next) == Ok(None))
      && (r == Ok(None) ==> VerifySignedList(list.version, list.keys, master.ed25519, list.signature).Ok?)
  {
    if ListOrderOf(list.version, list.keys, master.ed25519, list.signature) == Ok(Legacy) {
      var keys := Sort(PlainText, list.keys);
      W.CheckListDevicesMeans(list.keys);
      BuiltSignatureVerifies(master, list.version, list.keys, keys);
      SortIdempotent(PlainText, list.keys);
      RequestMeans(master.ed25519, MigrateOwnList(master, list).value.value);
    }
  }
}
