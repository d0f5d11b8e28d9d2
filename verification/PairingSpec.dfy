/** One pairing as one device sees it: the effect of each step of the session as a function of its state. */
module PairingSpec {
  import opened Base
  import opened Devices
  import opened PairingTypes
  import Links = PairingLinks
  import Text
  import W = Wire

  datatype Stage = Open | Keyed | Finished | Ended(reason: EndReason)

  datatype Session = Session(
    role: Role,
    rendezvousId: string,
    network: string,
    eligible: seq<string>,
    startedAt: int,
    stage: Stage,
    waiting: Option<string>,
    channel: Option<Channel>,
    ownDevice: Option<Device>,
    peerDevice: Option<Device>,
    peerIdSig: Option<Signature>,
    master: Option<string>,
    skipped: seq<WireReason>,
    offerSent: bool,
    joinSent: bool,
    code: Option<CheckCode>,
    ownConfirmed: bool,
    lastSeq: nat,
    relayCount: nat,
    relayBytes: nat)
  {
    predicate Active() {
      stage == Open || stage == Keyed
    }
  }

  function New(role: Role, id: string, network: string, now: int): Session {
    Session(role, id, network, [], now, Open, None, None, None, None, None, None, [], false, false, None, false, 0, 0, 0)
  }

  /** The creator side, with the ephemeral key `ephemeral`. */
  function Create(role: Role, id: string, network: string, ephemeral: string, now: int): Result<(Session, PairingLink), FlowError> {
    if role != Creator then Err(WrongRole)
    else match Links.NewLink(id, ephemeral)
    case Err(_) => Err(LinkError)
    case Ok(link) => Ok((New(Creator, id, network, now).(waiting := Some(ephemeral)), link))
  }

  /** A session of the joiner: it starts with an open channel, having sealed `hello`. */
  function JoinAny(env: Env, link: PairingLink, role: Role, id: string, network: string, eligible: seq<string>,
                   device: Device, ephemeral: string, std: bool, now: int): Result<(Session, Outgoing), FlowError> {
    if role != Joiner then Err(WrongRole)
    else if link.rendezvousId != id then Err(LinkError)
    else
      var payload := Initial(link.ephemeralKey, ephemeral, Json(Hello(WIRE_VERSION)), std);
      if !W.PairingMessageFits(0, 0, PayloadLen(env, payload)) then Err(TooLarge)
      else
        var channel := ChannelId(link.ephemeralKey, ephemeral);
        var session := New(Joiner, id, network, now).(
          eligible := eligible, code := Some(env.code(channel)), channel := Some(Channel(channel, Joiner, 1, 0)),
          ownDevice := Some(device), stage := Keyed, relayCount := 1, relayBytes := PayloadLen(env, payload));
        Ok((session, Outgoing(payload, 0, 0)))
  }

  // ---- the end of a session ----

  function End(s: Session, reason: EndReason): Session {
    s.(stage := if s.Active() then Ended(reason) else s.stage, waiting := None, channel := None)
  }

  function Fail<T>(s: Session, reason: EndReason, error: FlowError): (Session, Result<T, FlowError>) {
    (End(s, reason), Err(error))
  }

  function Finish(s: Session): Session {
    s.(stage := if s.Active() then Finished else s.stage, waiting := None, channel := None)
  }

  function Expire(s: Session, now: int): (Session, bool) {
    if s.Active() && SaturatingSub(now, s.startedAt) >= W.PAIRING_LIFETIME_SECS then (End(s, Timeout), true)
    else (s, false)
  }

  function SetMaster(s: Session, master: string): (Session, Result<(), FlowError>) {
    if W.IsKeyText(master) then (s.(master := Some(master)), Ok(())) else (s, Err(NoIdentity))
  }

  // ---- taking messages in ----

  type Taken = (Session, Result<Option<FlowEvent>, FlowError>)

  /** The channel of the creator comes from an initial message to its waiting key. */
  function TakeHello(env: Env, s: Session, payload: Payload): Taken {
    var taken := s.(waiting := None);
    if s.waiting.None? || !payload.Initial? || payload.creatorKey != s.waiting.value
    then Fail(taken, BadChannel, ChannelIsBad)
    else match ReadWire(payload.plain)
    case Some(Hello(_)) =>
      var id := ChannelId(payload.creatorKey, payload.joinerKey);
      (taken.(code := Some(env.code(id)), channel := Some(Channel(id, Creator, 0, 1)), stage := Keyed), Ok(Some(CodeReady)))
    case _ => Fail(taken, BadChannel, ChannelIsBad)
  }

  function HasNetwork(networks: seq<WireNetwork>, name: string): bool {
    networks != [] && (networks[0].network == name || HasNetwork(networks[1..], name))
  }

  function FirstEligible(networks: seq<WireNetwork>, eligible: seq<string>): Option<string> {
    if networks == [] then None
    else if networks[0].network in eligible then Some(networks[0].network)
    else FirstEligible(networks[1..], eligible)
  }

  /** The network that the joiner takes: its own first, else the first offered one that is eligible. */
  function ChosenNetwork(s: Session, networks: seq<WireNetwork>): string {
    if HasNetwork(networks, s.network) then s.network
    else match FirstEligible(networks, s.eligible)
    case Some(name) => name
    case None => s.network
  }

  /** The master of the last offered entry of a network. */
  function OfferedMaster(networks: seq<WireNetwork>, name: string): Option<string> {
    if networks == [] then None
    else
      var last := networks[|networks| - 1];
      if last.network == name then Some(last.master) else OfferedMaster(networks[..|networks| - 1], name)
  }

  /** The offered networks that the joiner leaves out. */
  function LeftOut(networks: seq<WireNetwork>, name: string): seq<WireReason> {
    if networks == [] then []
    else
      var last := networks[|networks| - 1];
      LeftOut(networks[..|networks| - 1], name) + (if last.network == name then [] else [WireReason(last.network, "failed")])
  }

  function TakeOffer(s: Session, networks: seq<WireNetwork>): Taken {
    if s.master.Some? then Fail(s, BadMessage, MessageIsBad)
    else
      var named := s.(network := ChosenNetwork(s, networks));
      match OfferedMaster(networks, named.network)
      case None => Fail(named, Failed, NotOffered)
      case Some(master) => (named.(master := Some(master), skipped := LeftOut(networks, named.network)), Ok(Some(Offered)))
  }

  function FindJoined(joined: seq<WireJoined>, name: string): Option<WireJoined> {
    if joined == [] then None
    else if joined[0].network == name then Some(joined[0])
    else FindJoined(joined[1..], name)
  }

  function TakeJoin(s: Session, joined: seq<WireJoined>): Taken {
    match FindJoined(joined, s.network)
    case None => Fail(s, Failed, Refused)
    case Some(entry) =>
      if !s.offerSent || s.peerDevice.Some? then Fail(s, BadMessage, MessageIsBad)
      else (s.(peerDevice := Some(Device(entry.ed25519, entry.curve25519)), peerIdSig := Some(entry.sig)), Ok(Some(Joined)))
  }

  function FindSigned(signed: seq<WireSigned>, name: string): Option<WireSigned> {
    if signed == [] then None
    else if signed[0].network == name then Some(signed[0])
    else FindSigned(signed[1..], name)
  }

  function TakeSigned(s: Session, signed: seq<WireSigned>): Taken {
    var found := FindSigned(signed, s.network);
    if found.None? || s.master.None? || s.ownDevice.None? then Fail(s, Failed, Refused)
    else
      var entry, master, own := found.value, s.master.value, s.ownDevice.value;
      var certificate := Certificate(entry.list.ver, own.ed25519, master, entry.cert);
      var list := SignedList(entry.list.ver, entry.list.devices, entry.list.sig);
      (s, Ok(Some(SignedAnswer(Grant(master, certificate, list)))))
  }

  function TakeDone(s: Session, paired: seq<string>): Taken {
    if s.offerSent && s.network in paired then (s, Ok(Some(Paired))) else Fail(s, Failed, MessageIsBad)
  }

  /** Reads an opened message for the role of this side. */
  function TakePlain(s: Session, plain: Plain): Taken {
    match (s.role, ReadWire(plain))
    case (Joiner, Some(Offer(_, networks, _))) => TakeOffer(s, networks)
    case (Creator, Some(Join(_, joined, _))) => TakeJoin(s, joined)
    case (Joiner, Some(Signed(_, signed, _))) => TakeSigned(s, signed)
    case (Creator, Some(Done(_, paired))) => TakeDone(s, paired)
    case _ => Fail(s, BadMessage, MessageIsBad)
  }

  /** Whether the channel opens the payload: it is the next message of the peer. */
  predicate Opens(channel: Channel, payload: Payload) {
    payload.Sealed? && payload.id == channel.id && payload.from == Peer(channel.side) && payload.n == channel.received
  }

  /** The session after its channel opened one more message. */
  function Opened(s: Session): Session
    requires s.channel.Some?
  {
    s.(channel := Some(s.channel.value.(received := s.channel.value.received + 1)))
  }

  /** Only the next message of the channel is opened; what it opens to is read. */
  function TakeSealed(s: Session, payload: Payload): Taken {
    if !payload.Sealed? && !payload.std then Fail(s, BadMessage, MessageIsBad)
    else if s.channel.None? || !Opens(s.channel.value, payload) then Fail(s, BadChannel, ChannelIsBad)
    else TakePlain(Opened(s), payload.plain)
  }

  function TakeIn(env: Env, s: Session, payload: Payload): Taken {
    match s.stage
    case Open => TakeHello(env, s, payload)
    case Keyed => TakeSealed(s, payload)
    case Finished => (s, Ok(None))
    case Ended(_) => (s, Ok(None))
  }

  /** The session that takes in a new message of the peer, with the message counted. */
  function Counted(env: Env, s: Session, m: RelayMessage): Session {
    s.(lastSeq := m.seqno, relayCount := s.relayCount + 1,
       relayBytes := SaturatingAdd(s.relayBytes, PayloadLen(env, m.payload)))
  }

  /** One message of the relay: an old one and one of this side change no more than the last sequence. */
  function AcceptOne(env: Env, s: Session, m: RelayMessage): Taken {
    if m.seqno <= s.lastSeq then (s, Ok(None))
    else
      var seen := s.(lastSeq := m.seqno);
      if m.from == s.role then (seen, Ok(None))
      else if PayloadLen(env, m.payload) > W.PAIRING_MESSAGE_MAX_BYTES then Fail(seen, BadMessage, MessageIsBad)
      else TakeIn(env, Counted(env, s, m), m.payload)
  }

  function EventList(e: Option<FlowEvent>): seq<FlowEvent> {
    match e case None => [] case Some(event) => [event]
  }

  type Accepted = (Session, Result<seq<FlowEvent>, FlowError>)

  function Before(events: seq<FlowEvent>, rest: Accepted): Accepted {
    match rest.1
    case Ok(more) => (rest.0, Ok(events + more))
    case Err(_) => rest
  }

  lemma BeforeNothing(rest: Accepted)
    ensures Before([], rest) == rest
  {
    match rest.1
    case Ok(more) => assert [] + more == more;
    case Err(_) =>
  }

  function AcceptSorted(env: Env, s: Session, sorted: seq<RelayMessage>): Accepted
    decreases |sorted|
  {
    if sorted == [] then (s, Ok([]))
    else match AcceptOne(env, s, sorted[0])
    case (s', Err(e)) => (s', Err(e))
    case (s', Ok(event)) => Before(EventList(event), AcceptSorted(env, s', sorted[1..]))
  }

  function InsertBySeq(m: RelayMessage, sorted: seq<RelayMessage>): seq<RelayMessage> {
    if sorted == [] || m.seqno <= sorted[0].seqno then [m] + sorted else [sorted[0]] + InsertBySeq(m, sorted[1..])
  }

  /** The stable sort by sequence number. */
  function SortBySeq(messages: seq<RelayMessage>): seq<RelayMessage> {
    if messages == [] then [] else InsertBySeq(messages[0], SortBySeq(messages[1..]))
  }

  function Accept(env: Env, s: Session, messages: seq<RelayMessage>): Accepted {
    if !s.Active() then (s, Err(NotActive)) else AcceptSorted(env, s, SortBySeq(messages))
  }

  // ---- sealing ----

  /** The size that a message is checked with before it is sealed. */
  function SealBound(env: Env, m: Message): nat {
    (env.jsonLen(m) + CHANNEL_OVERHEAD + 2) / 3 * 4 + 4
  }

  function Seal(env: Env, s: Session, m: Message): (Session, Result<Outgoing, FlowError>) {
    if !W.PairingMessageFits(s.relayCount, s.relayBytes, SealBound(env, m)) then (s, Err(TooLarge))
    else if s.channel.None? then (s, Err(NoChannel))
    else
      var channel := s.channel.value;
      var payload := Sealed(channel.id, channel.side, channel.sent, Json(m));
      (s.(channel := Some(channel.(sent := channel.sent + 1)), relayCount := s.relayCount + 1,
          relayBytes := SaturatingAdd(s.relayBytes, PayloadLen(env, payload))),
       Ok(Outgoing(payload, s.relayCount, s.relayBytes)))
  }

  // ---- the steps of the user and of the driver ----

  function Confirm(env: Env, s: Session, typed: string): (Session, Result<Option<Outgoing>, FlowError>) {
    if !s.Active() then (s, Err(NotActive))
    else if s.code.None? then (s, Err(NoChannel))
    else if Text.ParseU8(Text.Trim(typed)) != Some(s.code.value) then Fail(s, WrongCode, CodeIsWrong)
    else if s.ownConfirmed then (s, Ok(None))
    else if s.role == Joiner then (s.(ownConfirmed := true), Ok(None))
    else if s.master.None? then (s, Err(NoIdentity))
    else match Seal(env, s, Offer(WIRE_VERSION, [WireNetwork(s.network, s.master.value)], []))
    case (s', Err(e)) => (s', Err(e))
    case (s', Ok(outgoing)) => (s'.(ownConfirmed := true, offerSent := true), Ok(Some(outgoing)))
  }

  predicate JoinReady(s: Session) {
    s.role == Joiner && s.stage == Keyed && s.ownConfirmed && s.master.Some? && !s.joinSent
  }

  function SealJoin(env: Env, s: Session, signature: Signature): (Session, Result<Outgoing, FlowError>) {
    if !JoinReady(s) then (s, Err(NotConfirmed))
    else if s.ownDevice.None? then (s, Err(NoIdentity))
    else
      var own := s.ownDevice.value;
      var wire := Join(WIRE_VERSION, [WireJoined(s.network, own.curve25519, own.ed25519, signature)], s.skipped);
      match Seal(env, s.(skipped := []), wire)
      case (s', Err(e)) => (s', Err(e))
      case (s', Ok(outgoing)) => (s'.(joinSent := true), Ok(outgoing))
  }

  /** The device that the holder may sign for, once its own code is confirmed. */
  function ConfirmedDevice(s: Session): Option<Device> {
    if s.role == Creator && s.stage == Keyed && s.ownConfirmed && s.offerSent then s.peerDevice else None
  }

  predicate PeerIdSignatureValid(s: Session) {
    s.peerDevice.Some? && s.peerIdSig.Some? && s.master.Some? &&
    VerifySignature(s.peerDevice.value.ed25519, s.peerIdSig.value,
      W.IdText(s.peerDevice.value.curve25519, s.master.value)).Ok?
  }

  function SignedMessage(network: string, grant: Grant): Message {
    Signed(WIRE_VERSION,
      [WireSigned(network, grant.certificate.signature, WireList(grant.list.version, grant.list.keys, grant.list.signature))], [])
  }

  function SealSigned(env: Env, s: Session, grant: Grant): (Session, Result<Outgoing, FlowError>) {
    if ConfirmedDevice(s).None? then (s, Err(NotConfirmed)) else Seal(env, s, SignedMessage(s.network, grant))
  }

  function SealRefusal(env: Env, s: Session, reason: string): (Session, Result<Outgoing, FlowError>) {
    if ConfirmedDevice(s).None? || reason !in REFUSAL_REASONS then (s, Err(NotConfirmed))
    else match Seal(env, s, Signed(WIRE_VERSION, [], [WireReason(s.network, reason)]))
    case (s', Err(e)) => (s', Err(e))
    case (s', Ok(outgoing)) => (End(s', Failed), Ok(outgoing))
  }

  function SealDone(env: Env, s: Session): (Session, Result<Outgoing, FlowError>) {
    if s.role != Joiner || !s.joinSent then (s, Err(NotConfirmed))
    else Seal(env, s, Done(WIRE_VERSION, [s.network]))
  }

  // ---- what the user sees ----

  datatype Status = Waiting | ShowCode(text: string) | AwaitingPeer | StatusDone | StatusEnded(reason: EndReason)

  function StatusOf(s: Session): Status {
    match s.stage
    case Open => Waiting
    case Keyed =>
      if s.code.Some? && !s.ownConfirmed then ShowCode(Text.Padded(s.code.value, 2)) else AwaitingPeer
    case Finished => StatusDone
    case Ended(reason) => StatusEnded(reason)
  }
}
