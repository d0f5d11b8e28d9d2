/** The values of the pairing flow: roles, wire messages, the relay, the channel and the sealed store. */
module PairingTypes {
  import opened Base
  import opened Devices
  import W = Wire

  datatype Role = Creator | Joiner

  function Peer(role: Role): Role {
    if role == Creator then Joiner else Creator
  }

  datatype ClosedReason = SideClosed | Expired | Replaced

  datatype EndReason =
    | Cancelled
    | Timeout
    | Closed(reason: ClosedReason)
    | WrongCode
    | BadChannel
    | BadMessage
    | Failed

  datatype FlowError =
    | LinkError
    | NotActive
    | WrongRole
    | NoChannel
    | CodeIsWrong
    | NotConfirmed
    | TooLarge
    | ChannelIsBad
    | MessageIsBad
    | BadGrant
    | ListFull
    | NoIdentity
    | NotOffered
    | Refused
    | StoreFailed

  /** A rendezvous and the ephemeral key of its creator. */
  datatype PairingLink = PairingLink(rendezvousId: string, ephemeralKey: string)

  /** A device as the other side sees it: two key texts. */
  datatype Device = Device(ed25519: string, curve25519: string)

  function DeviceOf(a: Account): Device {
    Device(a.ed25519, a.curve25519)
  }

  datatype Grant = Grant(master: string, certificate: Certificate, list: SignedList)

  // ---- wire messages ----

  datatype WireNetwork = WireNetwork(network: string, master: string)

  datatype WireJoined = WireJoined(network: string, curve25519: string, ed25519: string, sig: Signature)

  datatype WireReason = WireReason(network: string, reason: string)

  datatype WireList = WireList(ver: nat, devices: seq<string>, sig: Signature)

  datatype WireSigned = WireSigned(network: string, cert: Signature, list: WireList)

  datatype Message =
    | Hello(v: nat)
    | Offer(v: nat, networks: seq<WireNetwork>, full: seq<string>)
    | Join(v: nat, joined: seq<WireJoined>, skipped: seq<WireReason>)
    | Signed(v: nat, signed: seq<WireSigned>, refused: seq<WireReason>)
    | Done(v: nat, paired: seq<string>)

  const WIRE_VERSION: nat := 1

  const REFUSAL_REASONS: set<string> := {"full", "paired", "list-changed", "failed"}

  predicate ReasonsOk(list: seq<WireReason>) {
    forall i :: 0 <= i < |list| ==> list[i].network != "" && list[i].reason in REFUSAL_REASONS
  }

  predicate NamesOk(names: seq<string>) {
    forall i :: 0 <= i < |names| ==> names[i] != ""
  }

  /** The version, keys, signatures and reasons of a message are valid. */
  predicate Checked(m: Message) {
    m.v == WIRE_VERSION &&
    match m
    case Hello(_) => true
    case Offer(_, networks, full) =>
      (forall i :: 0 <= i < |networks| ==> networks[i].network != "" && W.IsKeyText(networks[i].master)) && NamesOk(full)
    case Join(_, joined, skipped) =>
      (forall i :: 0 <= i < |joined| ==>
        && joined[i].network != "" && W.IsKeyText(joined[i].ed25519) && W.IsKeyText(joined[i].curve25519)
        && !joined[i].sig.NotSignatureText?) && ReasonsOk(skipped)
    case Signed(_, signed, refused) =>
      (forall i :: 0 <= i < |signed| ==>
        && signed[i].network != "" && !signed[i].cert.NotSignatureText? && !signed[i].list.sig.NotSignatureText?
        && (forall k :: 0 <= k < |signed[i].list.devices| ==> W.IsKeyText(signed[i].list.devices[k])))
      && ReasonsOk(refused)
    case Done(_, paired) => NamesOk(paired)
  }

  // ---- channel and relay ----

  /** The channel that one pair of ephemeral keys gives. */
  datatype ChannelId = ChannelId(creatorKey: string, joinerKey: string)

  /** One end of a channel: how many messages it sealed and how many it opened. */
  datatype Channel = Channel(id: ChannelId, side: Role, sent: nat, received: nat)

  /** The bytes that a payload opens to. */
  datatype Plain = Json(message: Message) | NotJson(len: nat)

  /**
   * A payload of the relay: the initial message to the key `creatorKey`, message number `n` of one end of
   * a channel, or any other text. `std` tells whether a text that is no sealed message still reads as one.
   */
  datatype Payload =
    | Initial(creatorKey: string, joinerKey: string, plain: Plain, std: bool)
    | Sealed(id: ChannelId, from: Role, n: nat, plain: Plain)
    | Other(len: nat, std: bool)

  datatype RelayMessage = RelayMessage(seqno: nat, from: Role, payload: Payload)

  type CheckCode = n: nat | n < 100

  /** What the model leaves open: the check code of a channel and the JSON length of a message. */
  datatype Env = Env(code: ChannelId -> CheckCode, jsonLen: Message -> nat)

  /** How much longer than its plaintext a sealed message is, before base64. */
  const CHANNEL_OVERHEAD: nat := 16

  function PlainLen(env: Env, p: Plain): nat {
    match p case Json(m) => env.jsonLen(m) case NotJson(len) => len
  }

  function PayloadLen(env: Env, p: Payload): nat {
    match p
    case Initial(_, _, plain, _) =>
      W.Base64Len(W.KEY_TEXT_LEN + 1 + W.Base64Len(PlainLen(env, plain) + CHANNEL_OVERHEAD))
    case Sealed(_, _, _, plain) => W.Base64Len(PlainLen(env, plain) + CHANNEL_OVERHEAD)
    case Other(len, _) => len
  }

  function ReadWire(p: Plain): Option<Message> {
    match p
    case Json(m) => if Checked(m) then Some(m) else None
    case NotJson(_) => None
  }

  /** What a step sealed, with the count and the bytes of the relay up to then. */
  datatype Outgoing = Outgoing(payload: Payload, count: nat, total: nat)

  datatype FlowEvent = CodeReady | Offered | Joined | SignedAnswer(grant: Grant) | Paired

  // ---- the sealed store ----

  datatype Pending = Pending(role: Role, rendezvousId: string, startedAt: int)

  /** The fields of the sealed store that a pairing reads or writes. */
  datatype Store = Store(
    account: Option<Account>,
    master: Option<Account>,
    list: Option<SignedList>,
    certificate: Option<Certificate>,
    slot: Option<Pending>)
}
