/** Signatures, device certificates and signed device lists. */
module Devices {
  import opened Base
  import opened Orders
  import Text
  import W = Wire

  /** A signature text: made by the key `signer` over `text`, some other 64 bytes, or no signature text. */
  datatype Signature = Sig(signer: string, text: string) | OtherBytes(tag: nat) | NotSignatureText

  const ZERO_KEY: string := seq(W.KEY_TEXT_LEN, _ => 'A')

  datatype AccountKeys = AccountKeys(ed25519: string, curve25519: string)

  /** An Olm account: its public keys are canonical, and it signs any text. */
  type Account = a: AccountKeys | W.IsKeyText(a.ed25519) && W.IsKeyText(a.curve25519)
    witness AccountKeys(ZERO_KEY, ZERO_KEY)

  function Sign(a: Account, text: string): Signature {
    Sig(a.ed25519, text)
  }

  datatype E2eError =
    | WireFault(error: W.WireError)
    | BadSignature
    | UnknownSigner
    | DeviceMismatch
    | StaleList

  function VerifySignature(signer: string, signature: Signature, text: string): Result<(), E2eError> {
    if !W.IsKeyText(signer) then Err(WireFault(W.BadKey))
    else if signature.NotSignatureText? then Err(WireFault(W.BadSignature))
    else if signature == Sig(signer, text) then Ok(())
    else Err(BadSignature)
  }

  // ---- signed lists ----

  datatype SignedList = SignedList(version: nat, keys: seq<string>, signature: Signature)

  function BuildListSignature(version: nat, keys: seq<string>, sign: string -> Signature): Result<Signature, E2eError> {
    match W.ListText(version, keys)
    case Err(e) => Err(WireFault(e))
    case Ok(text) => if sign(text).NotSignatureText? then Err(WireFault(W.BadSignature)) else Ok(sign(text))
  }

  function VerifySignedList(version: nat, keys: seq<string>, master: string, signature: Signature): Result<(), E2eError> {
    match W.ListText(version, keys)
    case Err(e) => Err(WireFault(e))
    case Ok(text) => VerifySignature(master, signature, text)
  }

  /** A list verifies exactly when its master signed its version and its set of keys. */
  lemma VerifiedListMeans(version: nat, keys: seq<string>, master: string, signature: Signature)
    ensures VerifySignedList(version, keys, master, signature).Ok? <==>
      && W.IsVersion(version) && W.ValidKeys(keys) && W.IsKeyText(master)
      && signature == Sig(master, W.LIST_PREFIX + (Text.Decimal(version) + ":" + W.Join(Sort(PlainText, keys))))
  {
    W.CheckListDevicesMeans(keys);
  }

  /** Two lists under one signature have one version and one set of keys. */
  lemma OneSignatureOneList(v1: nat, k1: seq<string>, v2: nat, k2: seq<string>, master: string, signature: Signature)
    requires VerifySignedList(v1, k1, master, signature).Ok?
    ensures VerifySignedList(v2, k2, master, signature).Ok? <==> v1 == v2 && multiset(k1) == multiset(k2)
  {
    if VerifySignedList(v2, k2, master, signature).Ok? {
      W.ListTextInjective(PlainText, v1, k1, PlainText, v2, k2);
    }
    if v1 == v2 && multiset(k1) == multiset(k2) {
      W.CheckListDevicesMeans(k1);
      W.ListTextCanonical(PlainText, v1, k1, k2);
    }
  }

  /** What a master signs verifies under that master, whatever the order of the keys. */
  lemma BuiltSignatureVerifies(master: Account, version: nat, signed: seq<string>, read: seq<string>)
    requires BuildListSignature(version, signed, text => Sign(master, text)).Ok?
    requires multiset(read) == multiset(signed)
    ensures VerifySignedList(version, read, master.ed25519,
              BuildListSignature(version, signed, text => Sign(master, text)).value).Ok?
  {
    W.CheckListDevicesMeans(signed);
    W.ListTextCanonical(PlainText, version, signed, read);
  }

  // ---- device certificates ----

  datatype Certificate = Certificate(firstListVersion: nat, device: string, master: string, signature: Signature)

  function BuildCertificate(first: nat, device: string, master: string, sign: string -> Signature): Result<Certificate, E2eError> {
    match W.DeviceText(first, device)
    case Err(e) => Err(WireFault(e))
    case Ok(text) =>
      if !W.IsKeyText(master) then Err(WireFault(W.BadKey))
      else if sign(text).NotSignatureText? then Err(WireFault(W.BadSignature))
      else Ok(Certificate(first, device, master, sign(text)))
  }

  function VerifyCertificate(cert: Certificate, approved: seq<string>): Result<(), E2eError> {
    match W.DeviceText(cert.firstListVersion, cert.device)
    case Err(e) => Err(WireFault(e))
    case Ok(text) =>
      if !W.IsKeyText(cert.master) then Err(WireFault(W.BadKey))
      else if cert.signature.NotSignatureText? then Err(WireFault(W.BadSignature))
      else if cert.master !in approved then Err(UnknownSigner)
      else VerifySignature(cert.master, cert.signature, text)
  }

  /**
   * A certificate verifies exactly when an approved master signed its version and its device: changing
   * either field under the same signature makes it fail.
   */
  lemma OneSignatureOneCertificate(cert: Certificate, approved: seq<string>, version: nat, device: string)
    requires VerifyCertificate(cert, approved).Ok?
    ensures VerifyCertificate(cert.(firstListVersion := version, device := device), approved).Ok?
      <==> version == cert.firstListVersion && device == cert.device
  {
    if W.DeviceText(version, device) == W.DeviceText(cert.firstListVersion, cert.device) {
      W.DeviceTextInjective(version, device, cert.firstListVersion, cert.device);
    }
  }

  // ---- the identity block of a remote device ----

  /** A `did` stands for the hash of a device key. */
  datatype Did = Did(key: string)

  datatype DeviceCertificate = DeviceCertificate(did: Did, curve25519: string, master: string, signature: Signature)

  datatype PeerDevice = PeerDevice(did: Did, curve25519: string, ed25519: string)

  function AcceptPeerDevice(cert: DeviceCertificate, approved: seq<string>): Result<PeerDevice, E2eError> {
    if !W.IsKeyText(cert.curve25519) || !W.IsKeyText(cert.master) then Err(WireFault(W.BadKey))
    else if cert.signature.NotSignatureText? then Err(WireFault(W.BadSignature))
    else if Did(cert.master) != cert.did then Err(DeviceMismatch)
    else if cert.master !in approved then Err(UnknownSigner)
    else match VerifySignature(cert.master, cert.signature, W.IdText(cert.curve25519, cert.master))
    case Err(e) => Err(e)
    case Ok(_) => Ok(PeerDevice(cert.did, cert.curve25519, cert.master))
  }

  // ---- the newest list of one remote user ----

  type StoredList = Option<(nat, seq<string>)>

  function KeysOf(stored: StoredList): seq<string> {
    match stored case None => [] case Some((_, keys)) => keys
  }

  function VersionOf(stored: StoredList): nat {
    match stored case None => 0 case Some((version, _)) => version
  }

  /** The version rule of a list: the state after it and its answer. */
  function ApplyList(stored: StoredList, version: nat, keys: seq<string>): (StoredList, Result<W.ListDecision, E2eError>) {
    if !W.IsVersion(version) then (stored, Err(WireFault(W.BadVersion)))
    else match W.CheckListDevices(keys)
    case Err(e) => (stored, Err(WireFault(e)))
    case Ok(_) =>
      match W.DecideList(stored, version, keys)
      case Replace => (Some((version, keys)), Ok(W.Replace))
      case NoOp => (stored, Ok(W.NoOp))
      case Ignore => (stored, Err(StaleList))
  }

  class ListState {
    var stored: StoredList

    constructor ()
      ensures stored == None
    {
      stored := None;
    }

    constructor Clone(other: ListState)
      ensures stored == other.stored
    {
      stored := other.stored;
    }

    method Apply(version: nat, keys: seq<string>) returns (r: Result<W.ListDecision, E2eError>)
      modifies this
      ensures (stored, r) == ApplyList(old(stored), version, keys)
    {
      if !W.IsVersion(version) {
        return Err(WireFault(W.BadVersion));
      }
      var check := W.CheckListDevices(keys);
      if check.Err? {
        return Err(WireFault(check.error));
      }
      var decision := W.DecideList(stored, version, keys);
      match decision {
        case Replace => stored := Some((version, keys));
        case NoOp =>
        case Ignore => return Err(StaleList);
      }
      r := Ok(decision);
    }

    function Keys(): seq<string> reads this {
      KeysOf(stored)
    }
  }
}
