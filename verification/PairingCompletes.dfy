/** A pairing can finish: when every call works and both users type the shown code, both devices end up done. */
module PairingCompletes {
  import opened Base
  import opened Devices
  import opened Grants
  import opened Orders
  import opened PairingTypes
  import opened PairingSpec
  import opened PairingDriver
  import opened PairingHistory
  import A = PairingAgreement
  import H = PairingHolder
  import J = PairingJoiner
  import Text
  import W = Wire

  const EVERY_CALL_WORKS: Luck := (i: nat, c: Call) => Works

  /** A holder that can grant, a device on its network, and messages that the relay has room for. */
  ghost predicate CanPair(u: Setup, grant: Grant) {
    && u.master.Some? && u.list.Some?
    && u.device.ed25519 !in u.list.value.keys
    && BuildGrant(u.master.value, u.list.value, u.device.ed25519) == Ok(grant)
    && u.joinerNetwork == u.holderNetwork && u.holderNetwork != ""
    && RelayHasRoom(u, grant)
  }

  // ---- the five messages ----

  function HelloRelay(u: Setup): RelayMessage {
    RelayMessage(1, Joiner, HelloPayload(u))
  }

  function OfferRelay(u: Setup): RelayMessage {
    RelayMessage(2, Creator, Sealed(Cid(u), Creator, 0, Json(OfferMsg(u))))
  }

  function JoinRelay(u: Setup): RelayMessage {
    RelayMessage(3, Joiner, Sealed(Cid(u), Joiner, 1, Json(JoinMsg(u))))
  }

  function AnswerRelay(u: Setup, grant: Grant): RelayMessage {
    RelayMessage(4, Creator, Sealed(Cid(u), Creator, 1, Json(AnswerMsg(u, grant))))
  }

  function DoneRelay(u: Setup): RelayMessage {
    RelayMessage(5, Joiner, Sealed(Cid(u), Joiner, 2, Json(DoneMsg(u))))
  }

  /** The relay after `k` messages of a pairing that works. */
  ghost predicate Said(u: Setup, grant: Grant, relay: seq<RelayMessage>, k: nat) {
    && |relay| == k
    && (k > 0 ==> relay[0] == HelloRelay(u))
    && (k > 1 ==> relay[1] == OfferRelay(u))
    && (k > 2 ==> relay[2] == JoinRelay(u))
    && (k > 3 ==> relay[3] == AnswerRelay(u, grant))
    && (k > 4 ==> relay[4] == DoneRelay(u))
  }

  /** Bytes of the first `k` messages. */
  function Spent(u: Setup, grant: Grant, k: nat): nat {
    (if k > 0 then PayloadLen(u.env, HelloRelay(u).payload) else 0)
    + (if k > 1 then PayloadLen(u.env, OfferRelay(u).payload) else 0)
    + (if k > 2 then PayloadLen(u.env, JoinRelay(u).payload) else 0)
    + (if k > 3 then PayloadLen(u.env, AnswerRelay(u, grant).payload) else 0)
    + (if k > 4 then PayloadLen(u.env, DoneRelay(u).payload) else 0)
  }

  /** The limits of the relay let each message through after those before it, with the bound that is checked. */
  predicate RelayHasRoom(u: Setup, grant: Grant) {
    && W.PairingMessageFits(0, 0, PayloadLen(u.env, HelloRelay(u).payload))
    && W.PairingMessageFits(1, Spent(u, grant, 1), SealBound(u.env, OfferMsg(u)))
    && W.PairingMessageFits(2, Spent(u, grant, 2), SealBound(u.env, JoinMsg(u)))
    && W.PairingMessageFits(3, Spent(u, grant, 3), SealBound(u.env, AnswerMsg(u, grant)))
    && W.PairingMessageFits(4, Spent(u, grant, 4), SealBound(u.env, DoneMsg(u)))
  }

  /** The totals of a session after the first `k` messages. */
  predicate Sizes(u: Setup, grant: Grant, s: Session, k: nat) {
    s.relayCount == k && s.relayBytes == Spent(u, grant, k)
  }

  /** With room every message is taken in and the totals do not saturate. */
  lemma RoomMeans(u: Setup, grant: Grant)
    requires RelayHasRoom(u, grant)
    ensures PayloadLen(u.env, HelloRelay(u).payload) <= W.PAIRING_MESSAGE_MAX_BYTES
    ensures PayloadLen(u.env, OfferRelay(u).payload) <= W.PAIRING_MESSAGE_MAX_BYTES
    ensures PayloadLen(u.env, JoinRelay(u).payload) <= W.PAIRING_MESSAGE_MAX_BYTES
    ensures PayloadLen(u.env, AnswerRelay(u, grant).payload) <= W.PAIRING_MESSAGE_MAX_BYTES
    ensures PayloadLen(u.env, DoneRelay(u).payload) <= W.PAIRING_MESSAGE_MAX_BYTES
    ensures Spent(u, grant, 5) <= W.PAIRING_TOTAL_MAX_BYTES
  {
  }

  lemma OneMessage(env: Env, s: Session, m: RelayMessage)
    requires s.Active()
    ensures Accept(env, s, [m]) ==
      match AcceptOne(env, s, m)
      case (s', Ok(event)) => (s', Ok(EventList(event)))
      case (s', Err(e)) => (s', Err(e))
  {
    assert SortBySeq([m][1..]) == [];
    assert SortBySeq([m]) == [m];
    match AcceptOne(env, s, m)
    case (s', Ok(event)) =>
      assert AcceptSorted(env, s', [m][1..]) == (s', Ok([]));
      assert EventList(event) + [] == EventList(event);
    case (_, Err(_)) =>
  }

  /** Taking in one new message and handling its event, whatever becomes of the calls after the fetch. */
  lemma PumpEvent(u: Setup, network: string, side: Side, w: World, m: RelayMessage, s: Session, e: FlowEvent, luck: Luck)
    requires side.session.Active() && AcceptOne(u.env, side.session, m) == (s, Ok(Some(e)))
    requires luck(0, FetchMessages) == Works
    ensures Pump(u.env, network, u.device, side, w, [m], luck) ==
      AbortOnError(Handle(u.env, network, u.device, side.(session := s), w, e, luck, 1), luck, 0)
  {
    OneMessage(u.env, side.session, m);
    OneEvent(u.env, network, u.device, side.(session := s), w, e, luck, 1);
    PumpEvents(u, network, side, w, [m], s, [e], luck);
  }

  lemma PumpEvents(u: Setup, network: string, side: Side, w: World, batch: seq<RelayMessage>, s: Session,
                   events: seq<FlowEvent>, luck: Luck)
    requires side.session.Active() && Accept(u.env, side.session, batch) == (s, Ok(events))
    requires luck(0, FetchMessages) == Works
    ensures Pump(u.env, network, u.device, side, w, batch, luck) ==
      AbortOnError(HandleAll(u.env, network, u.device, side.(session := s), w, events, luck, 1), luck, 0)
  {
  }

  lemma PumpOne(u: Setup, network: string, side: Side, w: World, m: RelayMessage, s: Session, e: FlowEvent)
    requires side.session.Active() && AcceptOne(u.env, side.session, m) == (s, Ok(Some(e)))
    ensures var d := Handle(u.env, network, u.device, side.(session := s), w, e, EVERY_CALL_WORKS, 1);
      d.2.Ok? ==> Pump(u.env, network, u.device, side, w, [m], EVERY_CALL_WORKS) == d
  {
    PumpEvent(u, network, side, w, m, s, e, EVERY_CALL_WORKS);
  }

  /** The message that comes after the first `k` ones. */
  function Line(u: Setup, grant: Grant, k: nat): Message {
    if k == 1 then OfferMsg(u) else if k == 2 then JoinMsg(u) else if k == 3 then AnswerMsg(u, grant) else DoneMsg(u)
  }

  lemma SealsLine(u: Setup, grant: Grant, s: Session, k: nat)
    requires RelayHasRoom(u, grant) && Sizes(u, grant, s, k) && 1 <= k <= 4 && s.channel.Some?
    ensures var (s', r) := Seal(u.env, s, Line(u, grant, k));
      && r.Ok? && Sizes(u, grant, s', k + 1)
      && W.PairingMessageFits(r.value.count, r.value.total, PayloadLen(u.env, r.value.payload))
      && r.value.payload == Sealed(s.channel.value.id, s.channel.value.side, s.channel.value.sent, Json(Line(u, grant, k)))
      && s' == s.(channel := s'.channel, relayCount := s'.relayCount, relayBytes := s'.relayBytes)
      && s'.channel == Some(s.channel.value.(sent := s.channel.value.sent + 1))
  {
  }

  // ---- the holder ----

  ghost predicate HolderIs(u: Setup, grant: Grant, s: Session, stage: Stage, confirmed: bool, got: bool, last: nat, k: nat) {
    s.stage == stage && s.ownConfirmed == confirmed && s.peerDevice.Some? == got && s.lastSeq == last && Sizes(u, grant, s, k)
  }

  lemma HolderHearsHello(u: Setup, grant: Grant, w: World, side: Side)
    requires H.HolderOk(u, w, side) && HolderIs(u, grant, side.session, Open, false, false, 0, 0)
    requires RelayHasRoom(u, grant)
    ensures var d := Pump(u.env, u.holderNetwork, u.device, side, w, [HelloRelay(u)], EVERY_CALL_WORKS);
      d.1 == w && d.0.store == side.store && HolderIs(u, grant, d.0.session, Keyed, false, false, 1, 1)
  {
    RoomMeans(u, grant);
    PumpOne(u, u.holderNetwork, side, w, HelloRelay(u), AcceptOne(u.env, side.session, HelloRelay(u)).0, CodeReady);
  }

  /** The master of the holder stands in its session. */
  lemma HolderIsPrepared(u: Setup, w: World, side: Side)
    requires H.HolderOk(u, w, side) && u.master.Some?
    ensures PrepareHolder(side, EVERY_CALL_WORKS) ==
      (side.(session := side.session.(master := Some(MasterKey(u)))), Ok(()))
  {
    assert side.session.master.Some? ==> side.session.(master := Some(MasterKey(u))) == side.session;
    assert side.session.master.Some? ==> side.(session := side.session) == side;
  }

  lemma HolderTypesCode(u: Setup, grant: Grant, w: World, side: Side)
    requires H.HolderOk(u, w, side) && HolderIs(u, grant, side.session, Keyed, false, false, 1, 1)
    requires u.master.Some? && RelayHasRoom(u, grant)
    ensures var d := ConfirmCode(u.env, side, w, Text.Padded(Code(u), 2), EVERY_CALL_WORKS);
      && d.1.relay == w.relay + [RelayMessage(|w.relay| + 1, Creator, OfferRelay(u).payload)] && d.1.grant == w.grant
      && d.0.store == side.store && HolderIs(u, grant, d.0.session, Keyed, true, false, 1, 2)
  {
    HolderIsPrepared(u, w, side);
    Text.ShownCodeReadsBack(Code(u));
    var s := side.session.(master := Some(MasterKey(u)));
    SealsLine(u, grant, s, 1);
  }

  /** The holder reads `join` and knows the device. */
  lemma HolderReadsJoin(u: Setup, grant: Grant, w: World, s: Session)
    requires H.HolderSession(u, w, s, 0) && HolderIs(u, grant, s, Keyed, true, false, 1, 2)
    requires RelayHasRoom(u, grant) && u.holderNetwork != ""
    ensures var (s', r) := AcceptOne(u.env, s, JoinRelay(u));
      && r == Ok(Some(Joined)) && HolderIs(u, grant, s', Keyed, true, true, 3, 3)
      && s'.peerDevice == Some(DeviceOf(u.device)) && s'.peerIdSig == Some(IdSignature(u))
      && s' == s.(lastSeq := 3, relayCount := s'.relayCount, relayBytes := s'.relayBytes, channel := s'.channel,
                  peerDevice := s'.peerDevice, peerIdSig := s'.peerIdSig)
      && s'.channel.Some? && s'.channel.value == s.channel.value.(received := 2)
  {
    RoomMeans(u, grant);
    assert Checked(JoinMsg(u));
    assert FindJoined(JoinMsg(u).joined, u.holderNetwork) == Some(JoinMsg(u).joined[0]);
  }

  lemma HolderGrants(u: Setup, w: World, side: Side, grant: Grant)
    requires CanPair(u, grant) && side.store.master == u.master && side.store.list == u.list && |w.relay| == 3
    requires HolderIs(u, grant, side.session, Keyed, true, true, 3, 3)
    requires side.session.role == Creator && side.session.offerSent && side.session.network == u.holderNetwork
    requires side.session.peerDevice == Some(DeviceOf(u.device)) && side.session.peerIdSig == Some(IdSignature(u))
    requires side.session.master == Some(MasterKey(u))
    requires side.session.channel == Some(Channel(Cid(u), Creator, 1, 2))
    ensures var d := FinishCreator(u.env, side, w, EVERY_CALL_WORKS, 1);
      && d.2.Ok? && d.1.relay == w.relay + [AnswerRelay(u, grant)] && d.1.grant == Some(grant)
      && d.0.store == side.store.(list := Some(grant.list)) && HolderIs(u, grant, d.0.session, Keyed, true, true, 3, 4)
      && d.0.session.channel == Some(Channel(Cid(u), Creator, 2, 2))
  {
    assert PeerIdSignatureValid(side.session);
    BuiltRequest(u.master.value, u.list.value, u.device.ed25519);
    SealsLine(u, grant, side.session, 3);
  }

  lemma HolderHearsJoin(u: Setup, w: World, side: Side, grant: Grant)
    requires CanPair(u, grant) && H.HolderOk(u, w, side) && HolderIs(u, grant, side.session, Keyed, true, false, 1, 2)
    requires |w.relay| == 3 && w.grant.None?
    ensures var d := Pump(u.env, u.holderNetwork, u.device, side, w, [JoinRelay(u)], EVERY_CALL_WORKS);
      && d.1.relay == w.relay + [AnswerRelay(u, grant)] && d.1.grant == Some(grant)
      && HolderIs(u, grant, d.0.session, Keyed, true, true, 3, 4)
      && d.0.session.channel == Some(Channel(Cid(u), Creator, 2, 2))
  {
    HolderReadsJoin(u, grant, w, side.session);
    var s := AcceptOne(u.env, side.session, JoinRelay(u)).0;
    HolderGrants(u, w, side.(session := s), grant);
    PumpOne(u, u.holderNetwork, side, w, JoinRelay(u), s, Joined);
  }

  /** A session of the holder that sent its offer reads `done`. */
  lemma DoneIsRead(u: Setup, s: Session, m: RelayMessage)
    requires s.stage == Keyed && s.role == Creator && s.offerSent && s.network == u.holderNetwork && u.holderNetwork != ""
    requires s.channel.Some? && Opens(s.channel.value, m.payload) && m.payload.plain == Json(DoneMsg(u))
    requires m.from == Joiner && m.seqno > s.lastSeq && PayloadLen(u.env, m.payload) <= W.PAIRING_MESSAGE_MAX_BYTES
    ensures AcceptOne(u.env, s, m) == (Opened(Counted(u.env, s, m)), Ok(Some(Paired)))
  {
    assert Checked(DoneMsg(u));
  }

  /** `done` ends the session of such a holder. */
  lemma HolderEnds(u: Setup, w: World, side: Side, m: RelayMessage)
    requires var s := side.session;
      && s.stage == Keyed && s.role == Creator && s.offerSent && s.network == u.holderNetwork && u.holderNetwork != ""
      && s.channel.Some? && Opens(s.channel.value, m.payload) && m.payload.plain == Json(DoneMsg(u))
      && m.from == Joiner && m.seqno > s.lastSeq && PayloadLen(u.env, m.payload) <= W.PAIRING_MESSAGE_MAX_BYTES
    ensures var d := Pump(u.env, u.holderNetwork, u.device, side, w, [m], EVERY_CALL_WORKS);
      d.0.session.stage == Finished && d.1 == Note(w, Finishes(Creator))
  {
    DoneIsRead(u, side.session, m);
    PumpOne(u, u.holderNetwork, side, w, m, Opened(Counted(u.env, side.session, m)), Paired);
  }

  lemma HolderHearsDone(u: Setup, grant: Grant, w: World, side: Side)
    requires H.HolderOk(u, w, side) && HolderIs(u, grant, side.session, Keyed, true, true, 3, 4)
    requires RelayHasRoom(u, grant) && u.holderNetwork != ""
    requires side.session.channel == Some(Channel(Cid(u), Creator, 2, 2))
    ensures var d := Pump(u.env, u.holderNetwork, u.device, side, w, [DoneRelay(u)], EVERY_CALL_WORKS);
      d.0.session.stage == Finished && d.1 == Note(w, Finishes(Creator))
  {
    RoomMeans(u, grant);
    HolderEnds(u, w, side, DoneRelay(u));
  }

  // ---- the joiner ----

  ghost predicate JoinerIs(u: Setup, grant: Grant, s: Session, confirmed: bool, offered: bool, sent: bool, last: nat, k: nat) {
    && s.stage == Keyed && s.ownConfirmed == confirmed && s.master.Some? == offered && s.joinSent == sent
    && s.lastSeq == last && Sizes(u, grant, s, k) && s.network == u.holderNetwork
  }

  lemma JoinerTypesFirst(u: Setup, grant: Grant, w: World, side: Side)
    requires J.JoinerOk(u, w, side) && JoinerIs(u, grant, side.session, false, false, false, 0, 1)
    ensures var d := ConfirmCode(u.env, side, w, Text.Padded(Code(u), 2), EVERY_CALL_WORKS);
      && d.1 == Note(w, Typed(Joiner, Text.Padded(Code(u), 2)))
      && d.0 == side.(session := side.session.(ownConfirmed := true))
  {
    Text.ShownCodeReadsBack(Code(u));
  }

  /** The session that read the offer. */
  function WithOffer(u: Setup, s: Session, m: RelayMessage): Session {
    Counted(u.env, s, m).(channel := Some(Channel(Cid(u), Joiner, 1, 1)), master := Some(MasterKey(u)))
  }

  lemma ReadsOffer(u: Setup, s: Session, m: RelayMessage)
    requires s.stage == Keyed && s.role == Joiner && s.master.None? && s.skipped == [] && s.network == u.holderNetwork
    requires s.channel == Some(Channel(Cid(u), Joiner, 1, 0)) && u.master.Some? && u.holderNetwork != ""
    requires m.from == Creator && m.payload == OfferRelay(u).payload && m.seqno > s.lastSeq
    requires PayloadLen(u.env, m.payload) <= W.PAIRING_MESSAGE_MAX_BYTES
    ensures AcceptOne(u.env, s, m) == (WithOffer(u, s, m), Ok(Some(Offered)))
  {
    assert Checked(OfferMsg(u));
    var read := Opened(Counted(u.env, s, m));
    assert ChosenNetwork(read, OfferMsg(u).networks) == u.holderNetwork;
    J.OnlyOffered(u.holderNetwork, MasterKey(u), u.holderNetwork);
    assert TakePlain(read, m.payload.plain) == TakeOffer(read, OfferMsg(u).networks);
  }

  /** The joiner reads the offer. */
  lemma JoinerReadsOffer(u: Setup, grant: Grant, s: Session, confirmed: bool)
    requires JoinerIs(u, grant, s, confirmed, false, false, 0, 1) && s.role == Joiner && s.skipped == []
    requires s.channel == Some(Channel(Cid(u), Joiner, 1, 0))
    requires u.master.Some? && RelayHasRoom(u, grant) && u.holderNetwork != ""
    ensures var (s', r) := AcceptOne(u.env, s, OfferRelay(u));
      && r == Ok(Some(Offered)) && JoinerIs(u, grant, s', confirmed, true, false, 2, 2)
      && s' == s.(lastSeq := 2, relayCount := s.relayCount + 1,
                  relayBytes := SaturatingAdd(s.relayBytes, PayloadLen(u.env, OfferRelay(u).payload)),
                  channel := Some(Channel(Cid(u), Joiner, 1, 1)), master := Some(MasterKey(u)))
  {
    RoomMeans(u, grant);
    ReadsOffer(u, s, OfferRelay(u));
  }

  /** A joiner with the offer and the right code sends `join`. */
  lemma JoinerSendsNow(u: Setup, grant: Grant, side: Side, w: World, i: nat)
    requires JoinerIs(u, grant, side.session, true, true, false, 2, 2) && side.session.master == Some(MasterKey(u))
    requires side.session.channel == Some(Channel(Cid(u), Joiner, 1, 1)) && side.session.role == Joiner
    requires side.session.ownDevice == Some(DeviceOf(u.device)) && side.session.skipped == []
    requires side.store.account == Some(u.device) && RelayHasRoom(u, grant) && |w.relay| == 2
    ensures var d := SendJoinIfReady(u.env, side, w, EVERY_CALL_WORKS, i);
      && d.2.Ok? && d.1.relay == w.relay + [JoinRelay(u)] && d.1.grant == w.grant
      && d.0.store == side.store && JoinerIs(u, grant, d.0.session, true, true, true, 2, 3)
  {
    assert side.session.(skipped := []) == side.session;
    SealsLine(u, grant, side.session, 2);
  }

  lemma JoinerHearsOffer(u: Setup, grant: Grant, w: World, side: Side)
    requires J.JoinerOk(u, w, side) && JoinerIs(u, grant, side.session, true, false, false, 0, 1)
    requires u.master.Some? && RelayHasRoom(u, grant) && u.holderNetwork != ""
    requires u.joinerNetwork == u.holderNetwork && |w.relay| == 2
    ensures var d := Pump(u.env, u.joinerNetwork, u.device, side, w, [OfferRelay(u)], EVERY_CALL_WORKS);
      && d.1.relay == w.relay + [JoinRelay(u)] && d.1.grant == w.grant
      && d.0.store == side.store && JoinerIs(u, grant, d.0.session, true, true, true, 2, 3)
  {
    JoinerReadsOffer(u, grant, side.session, true);
    var s := AcceptOne(u.env, side.session, OfferRelay(u)).0;
    JoinerSendsNow(u, grant, side.(session := s), w, 1);
    PumpOne(u, u.joinerNetwork, side, w, OfferRelay(u), s, Offered);
  }

  /** The joiner reads its grant. */
  lemma JoinerReadsAnswer(u: Setup, s: Session, grant: Grant)
    requires Checked(AnswerMsg(u, grant)) && RelayHasRoom(u, grant) && J.GrantReads(u, grant)
    requires JoinerIs(u, grant, s, true, true, true, 2, 3) && s.role == Joiner && s.master == Some(MasterKey(u))
    requires s.ownDevice == Some(DeviceOf(u.device)) && s.channel == Some(Channel(Cid(u), Joiner, 2, 1))
    ensures var (s', r) := AcceptOne(u.env, s, AnswerRelay(u, grant));
      && r == Ok(Some(SignedAnswer(grant))) && JoinerIs(u, grant, s', true, true, true, 4, 4) && s'.role == Joiner
      && s'.channel == Some(Channel(Cid(u), Joiner, 2, 2))
  {
    var m := AnswerRelay(u, grant);
    RoomMeans(u, grant);
    var counted := Counted(u.env, s, m);
    var read := Opened(counted);
    J.AnswerReadsBack(u, read, grant);
    assert TakePlain(read, m.payload.plain) == TakeSigned(read, AnswerMsg(u, grant).signed);
    assert AcceptOne(u.env, s, m) == TakeIn(u.env, counted, m.payload);
  }

  lemma AnswerIsChecked(u: Setup, grant: Grant)
    requires u.master.Some? && u.list.Some? && u.holderNetwork != ""
    requires BuildGrant(u.master.value, u.list.value, u.device.ed25519) == Ok(grant)
    ensures Checked(AnswerMsg(u, grant))
  {
    BuiltGrantVerifies(u.master.value, u.list.value, u.device.ed25519);
    VerifiedListMeans(grant.list.version, grant.list.keys, grant.master, grant.list.signature);
    SignedIsChecked(u.holderNetwork, grant);
  }

  lemma SignedIsChecked(network: string, grant: Grant)
    requires network != "" && W.ValidKeys(grant.list.keys)
    requires !grant.certificate.signature.NotSignatureText? && !grant.list.signature.NotSignatureText?
    ensures Checked(SignedMessage(network, grant))
  {
  }

  lemma JoinerKeepsGrant(u: Setup, side: Side, w: World, grant: Grant)
    requires CanPair(u, grant) && side.store.account == Some(u.device) && |w.relay| == 4
    requires side.store.master.Some? ==> side.store.master.value.ed25519 == MasterKey(u)
    requires JoinerIs(u, grant, side.session, true, true, true, 4, 4) && side.session.role == Joiner
    requires side.session.channel == Some(Channel(Cid(u), Joiner, 2, 2))
    ensures var d := FinishJoiner(u.env, u.device, side, w, grant, EVERY_CALL_WORKS, 1);
      && d.2.Ok? && d.1.relay == w.relay + [DoneRelay(u)] && d.0.session.stage == Finished
  {
    BuiltGrantApplies(u.master.value, u.list.value, u.device.ed25519, side.store);
    J.FinishInTwo(u, side, w, grant, EVERY_CALL_WORKS, 1);
    SealsLine(u, grant, side.session, 4);
    assert AccessOf(EVERY_CALL_WORKS, 1) == Access(true, true, true);
  }

  lemma JoinerHearsAnswer(u: Setup, w: World, side: Side, grant: Grant)
    requires CanPair(u, grant) && J.JoinerOk(u, w, side) && JoinerIs(u, grant, side.session, true, true, true, 2, 3)
    requires side.store.master.Some? ==> side.store.master.value.ed25519 == MasterKey(u)
    requires |w.relay| == 4
    ensures var d := Pump(u.env, u.joinerNetwork, u.device, side, w, [AnswerRelay(u, grant)], EVERY_CALL_WORKS);
      d.1.relay == w.relay + [DoneRelay(u)] && d.0.session.stage == Finished
  {
    AnswerIsChecked(u, grant);
    J.HolderGrantReads(u, grant);
    JoinerReadsAnswer(u, side.session, grant);
    var s := AcceptOne(u.env, side.session, AnswerRelay(u, grant)).0;
    JoinerKeepsGrant(u, side.(session := s), w, grant);
    AnswerIsHandled(u, side.(session := s), w, grant);
    PumpOne(u, u.joinerNetwork, side, w, AnswerRelay(u, grant), s, SignedAnswer(grant));
  }

  lemma AnswerIsHandled(u: Setup, side: Side, w: World, grant: Grant)
    ensures Handle(u.env, u.joinerNetwork, u.device, side, w, SignedAnswer(grant), EVERY_CALL_WORKS, 1)
      == FinishJoiner(u.env, u.device, side, w, grant, EVERY_CALL_WORKS, 1)
  {
  }

  // ---- the join in either order ----

  /** A joiner in any reachable state before the code and the offer, and the offer at any place of the log. */
  ghost predicate OfferComes(u: Setup, w: World, side: Side, m: RelayMessage) {
    && J.JoinerOk(u, w, side) && side.session.stage == Keyed
    && !side.session.ownConfirmed && side.session.master.None?
    && side.session.network == u.joinerNetwork == u.holderNetwork && u.holderNetwork != "" && u.master.Some?
    && m.from == Creator && m.payload == OfferRelay(u).payload && m.seqno > side.session.lastSeq
    && PayloadLen(u.env, m.payload) <= W.PAIRING_MESSAGE_MAX_BYTES
  }

  lemma OfferIsHandled(u: Setup, side: Side, w: World, luck: Luck)
    requires side.session.network == u.joinerNetwork
    ensures Handle(u.env, u.joinerNetwork, u.device, side, w, Offered, luck, 1) == SendJoinIfReady(u.env, side, w, luck, 1)
  {
  }

  /** The right code on a joiner. */
  lemma JoinerConfirms(u: Setup, side: Side, w: World, text: string, luck: Luck)
    requires side.session.stage == Keyed && side.session.role == Joiner && side.session.code == Some(Code(u))
    requires !side.session.ownConfirmed && RightCode(u, text)
    ensures ConfirmCode(u.env, side, w, text, luck) ==
      AbortOnError(SendJoinIfReady(u.env, side.(session := side.session.(ownConfirmed := true)),
                                   Note(w, Typed(Joiner, text)), luck, 1), luck, 0)
  {
    assert side.(session := side.session) == side;
  }

  lemma NotReady(u: Setup, side: Side, w: World, luck: Luck)
    requires !JoinReady(side.session)
    ensures AbortOnError(SendJoinIfReady(u.env, side, w, luck, 1), luck, 0) == (side, w, Ok(()))
  {
  }

  /** What the joiner does once it has the right code and the offer. */
  function SendsJoin(u: Setup, side: Side, w: World, m: RelayMessage, luck: Luck): Driven {
    AbortOnError(SendJoinIfReady(u.env, side.(session := WithOffer(u, side.session, m).(ownConfirmed := true)), w, luck, 1), luck, 0)
  }

  lemma CodeThenOffer(u: Setup, w: World, side: Side, m: RelayMessage, text: string, luck: Luck)
    requires OfferComes(u, w, side, m) && RightCode(u, text) && luck(0, FetchMessages) == Works
    ensures var typed := ConfirmCode(u.env, side, w, text, luck);
      && typed.1 == Note(w, Typed(Joiner, text))
      && Pump(u.env, u.joinerNetwork, u.device, typed.0, typed.1, [m], luck) == SendsJoin(u, side, typed.1, m, luck)
  {
    var w1 := Note(w, Typed(Joiner, text));
    var typed := side.(session := side.session.(ownConfirmed := true));
    JoinerConfirms(u, side, w, text, luck);
    NotReady(u, typed, w1, luck);
    ReadsOffer(u, typed.session, m);
    var read := WithOffer(u, side.session, m).(ownConfirmed := true);
    assert WithOffer(u, typed.session, m) == read;
    PumpEvent(u, u.joinerNetwork, typed, w1, m, read, Offered, luck);
    OfferIsHandled(u, side.(session := read), w1, luck);
  }

  lemma OfferThenCode(u: Setup, w: World, side: Side, m: RelayMessage, text: string, luck: Luck)
    requires OfferComes(u, w, side, m) && RightCode(u, text) && luck(0, FetchMessages) == Works
    ensures var offered := Pump(u.env, u.joinerNetwork, u.device, side, w, [m], luck);
      && offered.1 == w
      && ConfirmCode(u.env, offered.0, offered.1, text, luck) == SendsJoin(u, side, Note(w, Typed(Joiner, text)), m, luck)
  {
    var read := side.(session := WithOffer(u, side.session, m));
    ReadsOffer(u, side.session, m);
    PumpEvent(u, u.joinerNetwork, side, w, m, read.session, Offered, luck);
    OfferIsHandled(u, read, w, luck);
    NotReady(u, read, w, luck);
    JoinerConfirms(u, read, w, text, luck);
  }

  lemma JoinIsSent(u: Setup, w: World, w1: World, side: Side, m: RelayMessage, luck: Luck)
    requires OfferComes(u, w, side, m)
    ensures var d := SendsJoin(u, side, w1, m, luck);
      && (d.1.relay == w1.relay || d.1.relay == w1.relay + [RelayMessage(|w1.relay| + 1, Joiner, JoinRelay(u).payload)])
      && (d.2.Ok? ==> d.1.relay == w1.relay + [RelayMessage(|w1.relay| + 1, Joiner, JoinRelay(u).payload)] && d.0.session.joinSent)
      && (d.2.Err? ==> !d.0.session.Active())
  {
    var s := WithOffer(u, side.session, m).(ownConfirmed := true);
    assert s.(skipped := []) == s;
  }

  /**
   * The joiner may type the code before the offer arrives or after, wherever the offer stands in the log and
   * whatever becomes of the calls after the fetch: both orders end in the same session, store, relay and
   * answer. Nothing is posted before both are there; then one `join` is posted, or the pairing ends.
   */
  lemma JoinInEitherOrder(u: Setup, w: World, side: Side, m: RelayMessage, text: string, luck: Luck)
    requires OfferComes(u, w, side, m) && RightCode(u, text) && luck(0, FetchMessages) == Works
    ensures var typed := ConfirmCode(u.env, side, w, text, luck);
      var typedThenOffer := Pump(u.env, u.joinerNetwork, u.device, typed.0, typed.1, [m], luck);
      var offered := Pump(u.env, u.joinerNetwork, u.device, side, w, [m], luck);
      var offerThenTyped := ConfirmCode(u.env, offered.0, offered.1, text, luck);
      var longer := w.relay + [RelayMessage(|w.relay| + 1, Joiner, JoinRelay(u).payload)];
      && typedThenOffer == offerThenTyped
      && typed.1.relay == w.relay && offered.1.relay == w.relay
      && (typedThenOffer.1.relay == w.relay || typedThenOffer.1.relay == longer)
      && (typedThenOffer.2.Ok? ==> typedThenOffer.1.relay == longer && typedThenOffer.0.session.joinSent)
      && (typedThenOffer.2.Err? ==> !typedThenOffer.0.session.Active())
  {
    CodeThenOffer(u, w, side, m, text, luck);
    OfferThenCode(u, w, side, m, text, luck);
    JoinIsSent(u, w, Note(w, Typed(Joiner, text)), side, m, luck);
  }

  // ---- the whole pairing ----

  /** The joiner holds no master, or the one of the holder. */
  predicate NoOtherMaster(u: Setup, store: Store) {
    store.master.Some? ==> store.master.value.ed25519 == MasterKey(u)
  }

  /** The pairing after its first `k` steps. */
  ghost predicate Phase(u: Setup, grant: Grant, sys: System, k: nat) {
    A.SystemOk(u, sys) && At(u, grant, sys, k)
  }

  ghost predicate At(u: Setup, grant: Grant, sys: System, k: nat) {
    && sys.joiner.Some?
    && (k <= 6 ==> NoOtherMaster(u, sys.joinerStore))
    && Said(u, grant, sys.world.relay, if k <= 2 then 1 else if k <= 4 then 2 else if k == 5 then 3 else if k == 6 then 4 else 5)
    && (k <= 5 ==> sys.world.grant.None?)
    && HolderPhase(u, grant, sys.holder.session, k)
    && JoinerPhase(u, grant, sys.joiner.value, k)
  }

  ghost predicate HolderPhase(u: Setup, grant: Grant, s: Session, k: nat) {
    if k <= 1 then HolderIs(u, grant, s, Open, false, false, 0, 0)
    else if k == 2 then HolderIs(u, grant, s, Keyed, false, false, 1, 1)
    else if k <= 5 then HolderIs(u, grant, s, Keyed, true, false, 1, 2)
    else if k <= 7 then HolderIs(u, grant, s, Keyed, true, true, 3, 4) && s.channel == Some(Channel(Cid(u), Creator, 2, 2))
    else s.stage == Finished
  }

  ghost predicate JoinerPhase(u: Setup, grant: Grant, s: Session, k: nat) {
    if k <= 3 then JoinerIs(u, grant, s, false, false, false, 0, 1)
    else if k == 4 then JoinerIs(u, grant, s, true, false, false, 0, 1)
    else if k <= 6 then JoinerIs(u, grant, s, true, true, true, 2, 3)
    else s.stage == Finished
  }

  function StepOf(u: Setup, grant: Grant, k: nat): Step {
    var text := Text.Padded(Code(u), 2);
    if k == 1 then PumpStep(Creator, [HelloRelay(u)], EVERY_CALL_WORKS)
    else if k == 2 then ConfirmStep(Creator, text, EVERY_CALL_WORKS)
    else if k == 3 then ConfirmStep(Joiner, text, EVERY_CALL_WORKS)
    else if k == 4 then PumpStep(Joiner, [OfferRelay(u)], EVERY_CALL_WORKS)
    else if k == 5 then PumpStep(Creator, [JoinRelay(u)], EVERY_CALL_WORKS)
    else if k == 6 then PumpStep(Joiner, [AnswerRelay(u, grant)], EVERY_CALL_WORKS)
    else PumpStep(Creator, [DoneRelay(u)], EVERY_CALL_WORKS)
  }

  lemma StepIsEnabled(u: Setup, grant: Grant, sys: System, k: nat)
    requires 1 <= k <= 7 && Phase(u, grant, sys, k)
    ensures Enabled(sys, StepOf(u, grant, k))
  {
    var relay := sys.world.relay;
    assert relay[0] == HelloRelay(u);
    if k == 4 {
      assert relay[1] in relay;
    } else if k == 5 {
      assert relay[2] in relay;
    } else if k == 6 {
      assert relay[3] in relay;
    } else if k == 7 {
      assert relay[4] in relay;
    }
  }

  lemma HolderOpens(u: Setup, grant: Grant, sys: System, k: nat)
    requires CanPair(u, grant) && 1 <= k <= 2 && Phase(u, grant, sys, k)
    ensures At(u, grant, Next(u, sys, StepOf(u, grant, k)), k + 1)
  {
    if k == 1 {
      HolderHearsHello(u, grant, sys.world, sys.holder);
    } else {
      HolderTypesCode(u, grant, sys.world, sys.holder);
    }
  }

  lemma HolderAnswersJoin(u: Setup, grant: Grant, sys: System)
    requires CanPair(u, grant) && Phase(u, grant, sys, 5)
    ensures At(u, grant, Next(u, sys, StepOf(u, grant, 5)), 6)
  {
    HolderHearsJoin(u, sys.world, sys.holder, grant);
  }

  lemma HolderIsDone(u: Setup, grant: Grant, sys: System)
    requires CanPair(u, grant) && Phase(u, grant, sys, 7)
    ensures At(u, grant, Next(u, sys, StepOf(u, grant, 7)), 8)
  {
    LastStep(u, grant, sys, StepOf(u, grant, 7));
  }

  lemma LastStep(u: Setup, grant: Grant, sys: System, step: Step)
    requires H.HolderOk(u, sys.world, sys.holder) && HolderIs(u, grant, sys.holder.session, Keyed, true, true, 3, 4)
    requires RelayHasRoom(u, grant) && u.holderNetwork != ""
    requires sys.holder.session.channel == Some(Channel(Cid(u), Creator, 2, 2))
    requires step == PumpStep(Creator, [DoneRelay(u)], EVERY_CALL_WORKS)
    ensures var next := Next(u, sys, step);
      && next.holder.session.stage == Finished && next.world.relay == sys.world.relay
      && next.joiner == sys.joiner && next.joinerStore == sys.joinerStore
  {
    HolderHearsDone(u, grant, sys.world, sys.holder);
  }

  lemma JoinerTypes(u: Setup, grant: Grant, sys: System)
    requires CanPair(u, grant) && Phase(u, grant, sys, 3)
    ensures At(u, grant, Next(u, sys, StepOf(u, grant, 3)), 4)
  {
    JoinerTypesFirst(u, grant, sys.world, Side(sys.joiner.value, sys.joinerStore));
  }

  lemma JoinerIsOffered(u: Setup, grant: Grant, sys: System)
    requires CanPair(u, grant) && Phase(u, grant, sys, 4)
    ensures At(u, grant, Next(u, sys, StepOf(u, grant, 4)), 5)
  {
    JoinerHearsOffer(u, grant, sys.world, Side(sys.joiner.value, sys.joinerStore));
  }

  lemma JoinerIsGranted(u: Setup, grant: Grant, sys: System)
    requires CanPair(u, grant) && Phase(u, grant, sys, 6)
    ensures At(u, grant, Next(u, sys, StepOf(u, grant, 6)), 7)
  {
    JoinerHearsAnswer(u, sys.world, Side(sys.joiner.value, sys.joinerStore), grant);
  }

  lemma JoinerArrives(u: Setup, grant: Grant, sys: System, now: int)
    requires StartState(u, sys) && CanPair(u, grant) && NoOtherMaster(u, sys.joinerStore)
    ensures Phase(u, grant, StartJoiner(u, sys, now, EVERY_CALL_WORKS), 1)
  {
    A.InitialOk(u, sys);
    A.JoinStarts(u, sys, now, EVERY_CALL_WORKS);
    JoinerIsThere(u, grant, sys, now);
  }

  lemma JoinerIsThere(u: Setup, grant: Grant, sys: System, now: int)
    requires StartState(u, sys) && RelayHasRoom(u, grant) && u.joinerNetwork == u.holderNetwork
    requires NoOtherMaster(u, sys.joinerStore)
    ensures At(u, grant, StartJoiner(u, sys, now, EVERY_CALL_WORKS), 1)
  {
    RoomMeans(u, grant);
  }

  lemma ReachesNext(u: Setup, grant: Grant, sys: System, k: nat)
    requires CanPair(u, grant) && 1 <= k <= 7 && Phase(u, grant, sys, k)
    ensures At(u, grant, Next(u, sys, StepOf(u, grant, k)), k + 1)
  {
    if k <= 2 {
      HolderOpens(u, grant, sys, k);
    } else if k == 3 {
      JoinerTypes(u, grant, sys);
    } else if k == 4 {
      JoinerIsOffered(u, grant, sys);
    } else if k == 5 {
      HolderAnswersJoin(u, grant, sys);
    } else if k == 6 {
      JoinerIsGranted(u, grant, sys);
    } else {
      HolderIsDone(u, grant, sys);
    }
  }

  lemma NextPhase(u: Setup, grant: Grant, sys: System, k: nat)
    requires CanPair(u, grant) && 1 <= k <= 7 && Phase(u, grant, sys, k)
    ensures Phase(u, grant, Next(u, sys, StepOf(u, grant, k)), k + 1)
  {
    StepIsEnabled(u, grant, sys, k);
    A.NextOk(u, sys, StepOf(u, grant, k));
    ReachesNext(u, grant, sys, k);
  }

  lemma {:induction false} FromPhase(u: Setup, grant: Grant, sys: System, k: nat) returns (steps: seq<Step>, last: System)
    requires CanPair(u, grant) && 1 <= k <= 8 && Phase(u, grant, sys, k)
    ensures Run(u, sys, steps, last) && |steps| == 8 - k && Phase(u, grant, last, 8)
    decreases 8 - k
  {
    if k == 8 {
      return [], sys;
    }
    var step := StepOf(u, grant, k);
    StepIsEnabled(u, grant, sys, k);
    NextPhase(u, grant, sys, k);
    var more;
    more, last := FromPhase(u, grant, Next(u, sys, step), k + 1);
    steps := [step] + more;
    assert steps[1..] == more;
  }

  /**
   * A pairing can finish. From every first state of a holder that can grant and a joiner on its network
   * without another master, eight steps in which the calls work and the users type the shown code make both
   * devices done.
   */
  lemma Completes(u: Setup, grant: Grant, first: System, now: int) returns (steps: seq<Step>, last: System)
    requires StartState(u, first) && CanPair(u, grant) && NoOtherMaster(u, first.joinerStore)
    ensures Run(u, first, steps, last) && |steps| == 8
    ensures last.holder.session.stage == Finished && last.joiner.Some? && last.joiner.value.stage == Finished
  {
    var step := JoinStep(now, EVERY_CALL_WORKS);
    JoinerArrives(u, grant, first, now);
    var more;
    more, last := FromPhase(u, grant, Next(u, first, step), 1);
    steps := [step] + more;
    assert steps[1..] == more;
  }

  // ---- a pairing that can finish ----

  function KeyText(first: char): string {
    [first] + seq(W.KEY_TEXT_LEN - 1, _ => 'A')
  }

  /** The first list of a master, with one device. */
  function FirstList(master: Account, held: string): SignedList {
    var text := W.LIST_PREFIX + (Text.Decimal(1) + ":" + W.Join(Sort(PlainText, [held])));
    SignedList(1, [held], Sign(master, text))
  }

  /** The holder of such a list can grant any other device. */
  lemma FirstListGrants(master: Account, held: string, device: Account)
    requires W.IsKeyText(held) && held != device.ed25519
    ensures BuildGrant(master, FirstList(master, held), device.ed25519).Ok?
  {
    var list := FirstList(master, held);
    assert W.ValidKeys(list.keys);
    VerifiedListMeans(1, list.keys, master.ed25519, list.signature);
    BuildGrantMeans(master, list, device.ed25519);
  }

  /** A master whose list holds one device, and a second device on the same network. */
  function SomeSetup(master: Account, held: string, device: Account): Setup {
    Setup(Env(_ => 0, _ => 0), seq(22, _ => 'r'), "net", "net", [], KeyText('D'), KeyText('E'), false,
      Some(master), Some(FirstList(master, held)), device)
  }

  lemma SomeStart(u: Setup) returns (first: System)
    requires u.joinerNetwork == u.holderNetwork == "net" && u.rendezvousId == seq(22, _ => 'r')
    requires u.holderKey == KeyText('D')
    ensures StartState(u, first) && first.joinerStore.master.None?
  {
    var session := New(Creator, u.rendezvousId, u.holderNetwork, 0).(waiting := Some(u.holderKey));
    var created := Create(Creator, u.rendezvousId, u.holderNetwork, u.holderKey, 0);
    assert created.Ok? && created.value.0 == session;
    var store := Store(None, u.master, u.list, None, Some(PendingOf(session)));
    first := System(Side(session, store), None, Store(None, None, None, None, None), World([], [], None));
  }

  /** The conditions of `Completes` can be met: for any master, any listed device and any other device. */
  lemma SomePairingFinishes(master: Account, held: string, device: Account) returns (u: Setup, grant: Grant, first: System)
    requires W.IsKeyText(held) && held != device.ed25519
    ensures u.master == Some(master) && u.device == device && u.list == Some(FirstList(master, held))
    ensures CanPair(u, grant) && StartState(u, first) && NoOtherMaster(u, first.joinerStore)
  {
    u := SomeSetup(master, held, device);
    FirstListGrants(master, held, device);
    grant := BuildGrant(master, FirstList(master, held), device.ed25519).value;
    first := SomeStart(u);
  }
}
