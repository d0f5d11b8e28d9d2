/** What each step of one session does, said with places, numbers and literal answers. */
module PairingSteps {
  import opened Base
  import opened Devices
  import opened Filters
  import opened PairingTypes
  import opened PairingSpec
  import CatchUp = PairingCatchUp
  import Links = PairingLinks
  import Text
  import W = Wire

  // ---- the end ----

  /** An active session that ended for `reason`: both of its keys are gone. */
  function EndedFor(s: Session, reason: EndReason): Session {
    s.(stage := Ended(reason), waiting := None, channel := None)
  }

  /** A session ends for the first reason only. */
  lemma EndMeans(s: Session, reason: EndReason)
    ensures s.Active() <==> s.stage.Open? || s.stage.Keyed?
    ensures s.Active() ==> End(s, reason) == EndedFor(s, reason)
    ensures !s.Active() ==> End(s, reason) == s.(waiting := None, channel := None)
    ensures s.Active() ==> Finish(s) == s.(stage := Finished, waiting := None, channel := None)
    ensures !s.Active() ==> Finish(s) == s.(waiting := None, channel := None)
  {
  }

  /** A session ends by its age exactly when it is active and 300 seconds old, however far apart the clocks are. */
  lemma ExpireMeans(s: Session, now: int)
    ensures Expire(s, now).1 <==> s.Active() && now - s.startedAt >= 300
    ensures Expire(s, now).1 ==> Expire(s, now).0 == s.(stage := Ended(Timeout), waiting := None, channel := None)
    ensures !Expire(s, now).1 ==> Expire(s, now).0 == s
  {
  }

  /** Sums of bytes stop at the largest number of 64 bits. */
  lemma SumsStop(a: nat, b: nat)
    ensures a + b <= 18_446_744_073_709_551_615 ==> SaturatingAdd(a, b) == a + b
    ensures a + b > 18_446_744_073_709_551_615 ==> SaturatingAdd(a, b) == 18_446_744_073_709_551_615
  {
  }

  // ---- the start ----

  /** A session without any progress yet. */
  ghost predicate Untouched(s: Session) {
    && s.peerDevice.None? && s.peerIdSig.None? && s.master.None? && s.skipped == []
    && !s.offerSent && !s.joinSent && !s.ownConfirmed && s.lastSeq == 0
  }

  /** The creator needs its role, an id of 22 characters and a key text; it waits with its key and has no channel. */
  lemma CreateMeans(role: Role, id: string, network: string, ephemeral: string, now: int)
    ensures var r := Create(role, id, network, ephemeral, now);
      && (r == Err(WrongRole) <==> role == Joiner)
      && (r == Err(LinkError) <==> role == Creator && !(Links.IsRendezvousId(id) && W.IsKeyText(ephemeral)))
      && (r.Ok? <==> role == Creator && Links.IsRendezvousId(id) && W.IsKeyText(ephemeral))
      && (r.Ok? ==>
            var (s, link) := r.value;
            && link == PairingLink(id, ephemeral)
            && Untouched(s) && s.role == Creator && s.rendezvousId == id && s.network == network && s.startedAt == now
            && s.stage == Open && s.waiting == Some(ephemeral) && s.channel == None && s.code == None
            && s.eligible == [] && s.ownDevice == None && s.relayCount == 0 && s.relayBytes == 0)
  {
  }

  /** The joiner starts with the channel of the two keys, its check code and the initial message counted. */
  lemma JoinAnyMeans(env: Env, link: PairingLink, role: Role, id: string, network: string, eligible: seq<string>,
                     device: Device, ephemeral: string, std: bool, now: int)
    ensures var r := JoinAny(env, link, role, id, network, eligible, device, ephemeral, std, now);
      var id0 := ChannelId(link.ephemeralKey, ephemeral);
      var hello := Initial(link.ephemeralKey, ephemeral, Json(Hello(1)), std);
      var size := PayloadLen(env, hello);
      && (r == Err(WrongRole) <==> role == Creator)
      && (r == Err(LinkError) <==> role == Joiner && link.rendezvousId != id)
      && (r == Err(TooLarge) <==> role == Joiner && link.rendezvousId == id && size > 16_384)
      && (r.Ok? <==> role == Joiner && link.rendezvousId == id && size <= 16_384)
      && (r.Ok? ==>
            var (s, out) := r.value;
            && out == Outgoing(hello, 0, 0)
            && Untouched(s) && s.role == Joiner && s.rendezvousId == id && s.network == network && s.startedAt == now
            && s.stage == Keyed && s.waiting == None && s.channel == Some(Channel(id0, Joiner, 1, 0))
            && s.code == Some(env.code(id0)) && s.eligible == eligible && s.ownDevice == Some(device)
            && s.relayCount == 1 && s.relayBytes == size)
  {
  }

  /** The text of the master key that a holder shows must be a key text. */
  lemma SetMasterMeans(s: Session, key: string)
    ensures W.IsKeyText(key) ==> SetMaster(s, key) == (s.(master := Some(key)), Ok(()))
    ensures !W.IsKeyText(key) ==> SetMaster(s, key) == (s, Err(NoIdentity))
  {
  }

  // ---- the first message ----

  /** The payload is an initial message to the key of the creator, with a valid `hello` inside. */
  predicate GoodHello(s: Session, payload: Payload) {
    && s.waiting.Some? && payload.Initial? && payload.creatorKey == s.waiting.value
    && payload.plain.Json? && payload.plain.message.Hello? && payload.plain.message.v == 1
  }

  /** The ephemeral key of the creator serves once: it is gone after the first message, good or bad. */
  lemma TakeHelloMeans(env: Env, s: Session, payload: Payload)
    requires s.stage == Open
    ensures GoodHello(s, payload) ==>
      var id := ChannelId(s.waiting.value, payload.joinerKey);
      TakeHello(env, s, payload) ==
        (s.(stage := Keyed, waiting := None, channel := Some(Channel(id, Creator, 0, 1)), code := Some(env.code(id))),
         Ok(Some(CodeReady)))
    ensures !GoodHello(s, payload) ==> TakeHello(env, s, payload) == (EndedFor(s, BadChannel), Err(ChannelIsBad))
  {
  }

  // ---- the offer ----

  predicate Names(networks: seq<WireNetwork>, name: string) {
    exists i :: 0 <= i < |networks| && networks[i].network == name
  }

  /** The offer names the network of the joiner, or one that the joiner can pair. */
  predicate CanPair(s: Session, networks: seq<WireNetwork>) {
    Names(networks, s.network) || exists i :: 0 <= i < |networks| && networks[i].network in s.eligible
  }

  /** `i` is the first place whose network the joiner can pair. */
  ghost predicate FirstFit(s: Session, networks: seq<WireNetwork>, i: nat) {
    && i < |networks| && networks[i].network in s.eligible
    && forall j :: 0 <= j < i ==> networks[j].network !in s.eligible
  }

  /** `i` is the last place of the network `name`. */
  ghost predicate LastOf(networks: seq<WireNetwork>, name: string, i: nat) {
    && i < |networks| && networks[i].network == name
    && forall j :: i < j < |networks| ==> networks[j].network != name
  }

  /** `at` are all the places of other networks than `name`, in their order. */
  ghost predicate PlacesOfOthers(networks: seq<WireNetwork>, name: string, at: seq<nat>) {
    && (forall k :: 0 <= k < |at| ==> at[k] < |networks| && networks[at[k]].network != name)
    && (forall k, m :: 0 <= k < m < |at| ==> at[k] < at[m])
    && (forall i: nat :: i < |networks| && networks[i].network != name ==> i in at)
  }

  lemma {:induction false} HasNetworkMeans(networks: seq<WireNetwork>, name: string)
    ensures HasNetwork(networks, name) <==> Names(networks, name)
  {
    if networks != [] {
      HasNetworkMeans(networks[1..], name);
      if Names(networks, name) && networks[0].network != name {
        var i :| 0 <= i < |networks| && networks[i].network == name;
        assert networks[1..][i - 1] == networks[i];
      }
    }
  }

  lemma {:induction false} FirstEligibleFits(networks: seq<WireNetwork>, eligible: seq<string>, i: nat)
    requires i < |networks| && networks[i].network in eligible
    requires forall j :: 0 <= j < i ==> networks[j].network !in eligible
    ensures FirstEligible(networks, eligible) == Some(networks[i].network)
    decreases |networks|
  {
    if i > 0 {
      assert networks[1..][i - 1] == networks[i];
      forall j | 0 <= j < i - 1 ensures networks[1..][j].network !in eligible {
        assert networks[1..][j] == networks[j + 1];
      }
      FirstEligibleFits(networks[1..], eligible, i - 1);
    }
  }

  lemma {:induction false} NoneEligible(networks: seq<WireNetwork>, eligible: seq<string>)
    requires forall j :: 0 <= j < |networks| ==> networks[j].network !in eligible
    ensures FirstEligible(networks, eligible) == None
    decreases |networks|
  {
    if networks != [] {
      NoneEligible(networks[1..], eligible);
    }
  }

  lemma {:induction false} OfferedMasterMeans(networks: seq<WireNetwork>, name: string)
    ensures OfferedMaster(networks, name).Some? <==> Names(networks, name)
    ensures forall i: nat :: LastOf(networks, name, i) ==> OfferedMaster(networks, name) == Some(networks[i].master)
    ensures Names(networks, name) ==> exists i: nat :: LastOf(networks, name, i)
    decreases |networks|
  {
    if networks != [] {
      var n := |networks| - 1;
      OfferedMasterMeans(networks[..n], name);
      if networks[n].network == name {
        assert LastOf(networks, name, n);
      } else {
        forall i: nat | LastOf(networks, name, i) ensures LastOf(networks[..n], name, i) {
        }
        if Names(networks, name) {
          assert Names(networks[..n], name);
          var i: nat :| LastOf(networks[..n], name, i);
          assert LastOf(networks, name, i);
        }
      }
    }
  }

  lemma {:induction false} LeftOutMeans(networks: seq<WireNetwork>, name: string) returns (at: seq<nat>)
    ensures PlacesOfOthers(networks, name, at) && |LeftOut(networks, name)| == |at|
    ensures forall k :: 0 <= k < |at| ==> LeftOut(networks, name)[k] == WireReason(networks[at[k]].network, "failed")
    decreases |networks|
  {
    at := [];
    if networks != [] {
      var n := |networks| - 1;
      at := LeftOutMeans(networks[..n], name);
      if networks[n].network != name {
        at := at + [n];
        assert n in at;
      }
    }
  }

  /** An offer that names the network of the joiner leaves it there. */
  lemma OwnNetworkStays(s: Session, networks: seq<WireNetwork>)
    requires s.master.None? && Names(networks, s.network)
    ensures TakeOffer(s, networks).1 == Ok(Some(Offered)) && TakeOffer(s, networks).0.network == s.network
  {
    HasNetworkMeans(networks, s.network);
    OfferedMasterMeans(networks, s.network);
  }

  /** An offer without it moves the joiner to the first offered network that it can pair. */
  lemma MovesToFirstFit(s: Session, networks: seq<WireNetwork>, i: nat)
    requires s.master.None? && !Names(networks, s.network) && FirstFit(s, networks, i)
    ensures TakeOffer(s, networks).1 == Ok(Some(Offered)) && TakeOffer(s, networks).0.network == networks[i].network
  {
    HasNetworkMeans(networks, s.network);
    FirstEligibleFits(networks, s.eligible, i);
    OfferedMasterMeans(networks, networks[i].network);
  }

  /** An offer with no such network fails the pairing. */
  lemma NothingToPair(s: Session, networks: seq<WireNetwork>)
    requires s.master.None? && s.Active() && !Names(networks, s.network)
    requires forall i :: 0 <= i < |networks| ==> networks[i].network !in s.eligible
    ensures TakeOffer(s, networks) == (EndedFor(s, Failed), Err(NotOffered))
  {
    HasNetworkMeans(networks, s.network);
    NoneEligible(networks, s.eligible);
    OfferedMasterMeans(networks, s.network);
    assert s.(network := s.network) == s;
  }

  /** A second offer is a bad message. */
  lemma SecondOffer(s: Session, networks: seq<WireNetwork>)
    requires s.master.Some? && s.Active()
    ensures TakeOffer(s, networks) == (EndedFor(s, BadMessage), Err(MessageIsBad))
  {
  }

  lemma {:induction false} FirstFitIsThere(s: Session, networks: seq<WireNetwork>, from: nat) returns (i: nat)
    requires exists j :: from <= j < |networks| && networks[j].network in s.eligible
    requires forall j :: 0 <= j < from <= |networks| ==> networks[j].network !in s.eligible
    ensures FirstFit(s, networks, i)
    decreases |networks| - from
  {
    i := from;
    if networks[from].network !in s.eligible {
      i := FirstFitIsThere(s, networks, from + 1);
    }
  }

  /**
   * An offer is taken exactly when it is the first one and names the network of the joiner or one that the
   * joiner can pair. Then the master is that of the last entry of the network, and every entry of another
   * network is left out as failed, in the order of the offer.
   */
  lemma OfferMeans(s: Session, networks: seq<WireNetwork>) returns (last: nat, others: seq<nat>)
    requires s.Active()
    ensures var (s', r) := TakeOffer(s, networks);
      && (r.Ok? <==> s.master.None? && CanPair(s, networks))
      && (r.Ok? ==>
            && r == Ok(Some(Offered)) && LastOf(networks, s'.network, last) && PlacesOfOthers(networks, s'.network, others)
            && |s'.skipped| == |others|
            && (forall k :: 0 <= k < |others| ==> s'.skipped[k] == WireReason(networks[others[k]].network, "failed"))
            && s' == s.(network := s'.network, master := Some(networks[last].master), skipped := s'.skipped))
  {
    last, others := 0, [];
    if s.master.Some? {
      SecondOffer(s, networks);
    } else if Names(networks, s.network) {
      OwnNetworkStays(s, networks);
      last, others := TakenOffer(s, networks);
    } else if exists i :: 0 <= i < |networks| && networks[i].network in s.eligible {
      var i := FirstFitIsThere(s, networks, 0);
      MovesToFirstFit(s, networks, i);
      last, others := TakenOffer(s, networks);
    } else {
      NothingToPair(s, networks);
    }
  }

  lemma TakenOffer(s: Session, networks: seq<WireNetwork>) returns (last: nat, others: seq<nat>)
    requires TakeOffer(s, networks).1.Ok?
    ensures var (s', r) := TakeOffer(s, networks);
      && LastOf(networks, s'.network, last) && PlacesOfOthers(networks, s'.network, others)
      && |s'.skipped| == |others|
      && (forall k :: 0 <= k < |others| ==> s'.skipped[k] == WireReason(networks[others[k]].network, "failed"))
      && s' == s.(network := s'.network, master := Some(networks[last].master), skipped := s'.skipped)
  {
    var name := TakeOffer(s, networks).0.network;
    OfferedMasterMeans(networks, name);
    last :| LastOf(networks, name, last);
    others := LeftOutMeans(networks, name);
  }

  // ---- the answers ----

  /** `i` is the first entry of the network `name`. */
  ghost predicate FirstJoined(joined: seq<WireJoined>, name: string, i: nat) {
    i < |joined| && joined[i].network == name && forall j :: 0 <= j < i ==> joined[j].network != name
  }

  ghost predicate FirstSigned(signed: seq<WireSigned>, name: string, i: nat) {
    i < |signed| && signed[i].network == name && forall j :: 0 <= j < i ==> signed[j].network != name
  }

  lemma {:induction false} FindJoinedMeans(joined: seq<WireJoined>, name: string, i: nat)
    requires FirstJoined(joined, name, i)
    ensures FindJoined(joined, name) == Some(joined[i])
    decreases i
  {
    if i > 0 {
      FindJoinedMeans(joined[1..], name, i - 1);
    }
  }

  lemma {:induction false} NoneJoined(joined: seq<WireJoined>, name: string)
    requires forall j :: 0 <= j < |joined| ==> joined[j].network != name
    ensures FindJoined(joined, name) == None
    decreases |joined|
  {
    if joined != [] {
      NoneJoined(joined[1..], name);
    }
  }

  lemma {:induction false} FindSignedMeans(signed: seq<WireSigned>, name: string, i: nat)
    requires FirstSigned(signed, name, i)
    ensures FindSigned(signed, name) == Some(signed[i])
    decreases i
  {
    if i > 0 {
      FindSignedMeans(signed[1..], name, i - 1);
    }
  }

  lemma {:induction false} NoneSigned(signed: seq<WireSigned>, name: string)
    requires forall j :: 0 <= j < |signed| ==> signed[j].network != name
    ensures FindSigned(signed, name) == None
    decreases |signed|
  {
    if signed != [] {
      NoneSigned(signed[1..], name);
    }
  }

  /** The holder takes the device of the first entry of its network, once, and only after its offer. */
  lemma JoinMeans(s: Session, joined: seq<WireJoined>, i: nat)
    requires s.Active() && FirstJoined(joined, s.network, i)
    ensures s.offerSent && s.peerDevice.None? ==>
      TakeJoin(s, joined) ==
        (s.(peerDevice := Some(Device(joined[i].ed25519, joined[i].curve25519)), peerIdSig := Some(joined[i].sig)),
         Ok(Some(Joined)))
    ensures !s.offerSent || s.peerDevice.Some? ==> TakeJoin(s, joined) == (EndedFor(s, BadMessage), Err(MessageIsBad))
  {
    FindJoinedMeans(joined, s.network, i);
  }

  lemma JoinForOthers(s: Session, joined: seq<WireJoined>)
    requires s.Active() && forall j :: 0 <= j < |joined| ==> joined[j].network != s.network
    ensures TakeJoin(s, joined) == (EndedFor(s, Failed), Err(Refused))
  {
    NoneJoined(joined, s.network);
  }

  /** The joiner puts the grant together from the first entry of its network, its own device and the offered master. */
  lemma SignedMeans(s: Session, signed: seq<WireSigned>, i: nat)
    requires s.Active() && FirstSigned(signed, s.network, i)
    ensures s.master.Some? && s.ownDevice.Some? ==>
      var list := signed[i].list;
      TakeSigned(s, signed) ==
        (s, Ok(Some(SignedAnswer(Grant(s.master.value,
           Certificate(list.ver, s.ownDevice.value.ed25519, s.master.value, signed[i].cert),
           SignedList(list.ver, list.devices, list.sig))))))
    ensures s.master.None? || s.ownDevice.None? ==> TakeSigned(s, signed) == (EndedFor(s, Failed), Err(Refused))
  {
    FindSignedMeans(signed, s.network, i);
  }

  lemma SignedForOthers(s: Session, signed: seq<WireSigned>)
    requires s.Active() && forall j :: 0 <= j < |signed| ==> signed[j].network != s.network
    ensures TakeSigned(s, signed) == (EndedFor(s, Failed), Err(Refused))
  {
    NoneSigned(signed, s.network);
  }

  /** `done` counts only after the offer, and for the network of the holder. */
  lemma DoneMeans(s: Session, paired: seq<string>)
    requires s.Active()
    ensures s.offerSent && s.network in paired ==> TakeDone(s, paired) == (s, Ok(Some(Paired)))
    ensures !s.offerSent || s.network !in paired ==> TakeDone(s, paired) == (EndedFor(s, Failed), Err(MessageIsBad))
  {
  }

  // ---- the checks of a message ----

  predicate BadReason(list: seq<WireReason>) {
    exists i :: 0 <= i < |list| &&
      (|list[i].network| == 0 || list[i].reason !in ["full", "paired", "list-changed", "failed"])
  }

  predicate EmptyName(names: seq<string>) {
    exists i :: 0 <= i < |names| && |names[i]| == 0
  }

  predicate BadJoined(e: WireJoined) {
    |e.network| == 0 || !W.IsKeyText(e.ed25519) || !W.IsKeyText(e.curve25519) || e.sig == NotSignatureText
  }

  predicate BadSigned(e: WireSigned) {
    || |e.network| == 0 || e.cert == NotSignatureText || e.list.sig == NotSignatureText
    || exists k :: 0 <= k < |e.list.devices| && !W.IsKeyText(e.list.devices[k])
  }

  /** A message is read when its version is 1 and no name is empty, no key, signature or reason out of shape. */
  lemma CheckedMeans(v: nat, networks: seq<WireNetwork>, names: seq<string>, joined: seq<WireJoined>,
                     signed: seq<WireSigned>, reasons: seq<WireReason>)
    ensures Checked(Hello(v)) <==> v == 1
    ensures Checked(Done(v, names)) <==> v == 1 && !EmptyName(names)
    ensures Checked(Offer(v, networks, names)) <==>
      v == 1 && !EmptyName(names)
      && !(exists i :: 0 <= i < |networks| && (|networks[i].network| == 0 || !W.IsKeyText(networks[i].master)))
    ensures Checked(Join(v, joined, reasons)) <==>
      v == 1 && !BadReason(reasons) && !(exists i :: 0 <= i < |joined| && BadJoined(joined[i]))
    ensures Checked(Signed(v, signed, reasons)) <==>
      v == 1 && !BadReason(reasons) && !(exists i :: 0 <= i < |signed| && BadSigned(signed[i]))
  {
  }

  /** Only a checked JSON text is a message. */
  lemma ReadMeans(m: Message, len: nat)
    ensures ReadWire(NotJson(len)) == None
    ensures ReadWire(Json(m)) == (if Checked(m) then Some(m) else None)
  {
  }

  /**
   * Lengths at the relay. A sealed text is the plain one with 16 bytes more in base64; the first message has
   * the 43 characters of its key and a separator in front of that, and is base64 once more.
   */
  lemma LengthsMean(env: Env, p: Payload, k: nat)
    requires !p.Other?
    ensures p.Sealed? && PlainLen(env, p.plain) + 16 == 3 * k ==> PayloadLen(env, p) == 4 * k
    ensures p.Sealed? && PlainLen(env, p.plain) + 16 == 3 * k + 1 ==> PayloadLen(env, p) == 4 * k + 2
    ensures p.Sealed? && PlainLen(env, p.plain) + 16 == 3 * k + 2 ==> PayloadLen(env, p) == 4 * k + 3
    ensures p.Initial? ==> PayloadLen(env, p) == W.Base64Len(44 + PayloadLen(env, Sealed(ChannelId("", ""), Joiner, 0, p.plain)))
    ensures PayloadLen(env, Other(k, true)) == k
    ensures p.plain.Json? ==> PlainLen(env, p.plain) == env.jsonLen(p.plain.message)
    ensures p.plain.NotJson? ==> PlainLen(env, p.plain) == p.plain.len
  {
  }

  // ---- reading ----

  /** Who may read what: the joiner an offer and an answer, the holder a join and `done`. */
  predicate MayRead(role: Role, m: Message) {
    if role == Joiner then m.Offer? || m.Signed? else m.Join? || m.Done?
  }

  /** A message for the other role, a faulty one and a text that is no message end the pairing. */
  lemma PlainMeans(s: Session, plain: Plain)
    requires s.Active()
    ensures !plain.Json? || !Checked(plain.message) || !MayRead(s.role, plain.message) ==>
      TakePlain(s, plain) == (EndedFor(s, BadMessage), Err(MessageIsBad))
    ensures plain.Json? && Checked(plain.message) && MayRead(s.role, plain.message) ==>
      TakePlain(s, plain) == (match plain.message
        case Offer(_, networks, _) => TakeOffer(s, networks)
        case Join(_, joined, _) => TakeJoin(s, joined)
        case Signed(_, signed, _) => TakeSigned(s, signed)
        case Done(_, paired) => TakeDone(s, paired)
        case Hello(_) => (s, Err(MessageIsBad)))
  {
  }

  /** The next message of the peer: message number `received` of the other end of this very channel. */
  predicate IsNext(s: Session, p: Payload) {
    && s.channel.Some? && p.Sealed? && p.id == s.channel.value.id
    && p.from != s.channel.value.side && p.n == s.channel.value.received
  }

  /** Only the next sealed message is opened, and opening moves the counter of the channel by one. */
  lemma SealedMeans(s: Session, p: Payload)
    requires s.stage == Keyed
    ensures IsNext(s, p) ==>
      var channel := s.channel.value;
      TakeSealed(s, p) ==
        TakePlain(s.(channel := Some(Channel(channel.id, channel.side, channel.sent, channel.received + 1))), p.plain)
    ensures !IsNext(s, p) && (p.Sealed? || p.std) ==> TakeSealed(s, p) == (EndedFor(s, BadChannel), Err(ChannelIsBad))
    ensures !p.Sealed? && !p.std ==> TakeSealed(s, p) == (EndedFor(s, BadMessage), Err(MessageIsBad))
  {
  }

  /**
   * A message of the relay: an old one changes nothing, an own one and a large one are counted by their
   * sequence number only, and any other is counted and read as the stage says.
   */
  lemma AcceptOneMeans(env: Env, s: Session, m: RelayMessage)
    ensures m.seqno <= s.lastSeq ==> AcceptOne(env, s, m) == (s, Ok(None))
    ensures m.seqno > s.lastSeq && m.from == s.role ==> AcceptOne(env, s, m) == (s.(lastSeq := m.seqno), Ok(None))
    ensures m.seqno > s.lastSeq && m.from != s.role && PayloadLen(env, m.payload) > 16_384 && s.Active() ==>
      AcceptOne(env, s, m) == (EndedFor(s.(lastSeq := m.seqno), BadMessage), Err(MessageIsBad))
    ensures m.seqno > s.lastSeq && m.from != s.role && PayloadLen(env, m.payload) <= 16_384 ==>
      var seen := s.(lastSeq := m.seqno, relayCount := s.relayCount + 1,
                     relayBytes := SaturatingAdd(s.relayBytes, PayloadLen(env, m.payload)));
      AcceptOne(env, s, m) == (match s.stage
        case Open => TakeHello(env, seen, m.payload)
        case Keyed => TakeSealed(seen, m.payload)
        case _ => (seen, Ok(None)))
  {
  }

  function Numbered(n: nat): RelayMessage -> bool {
    (m: RelayMessage) => m.seqno == n
  }

  lemma {:induction false} InsertKeeps(m: RelayMessage, sorted: seq<RelayMessage>)
    ensures multiset(InsertBySeq(m, sorted)) == multiset(sorted) + multiset{m}
    decreases |sorted|
  {
    if sorted != [] && m.seqno > sorted[0].seqno {
      InsertKeeps(m, sorted[1..]);
      assert sorted == [sorted[0]] + sorted[1..];
    }
  }

  /** A message goes in behind none of its own number. */
  lemma {:induction false} InsertIsStable(m: RelayMessage, sorted: seq<RelayMessage>, n: nat)
    ensures Filter(InsertBySeq(m, sorted), Numbered(n)) == Filter([m], Numbered(n)) + Filter(sorted, Numbered(n))
    decreases |sorted|
  {
    if sorted == [] || m.seqno <= sorted[0].seqno {
      FilterConcat([m], sorted, Numbered(n));
    } else {
      var x, rest := sorted[0], sorted[1..];
      InsertIsStable(m, rest, n);
      FilterConcat([x], InsertBySeq(m, rest), Numbered(n));
      FilterConcat([x], rest, Numbered(n));
      assert sorted == [x] + rest;
      OneOfTwo(x, m, Filter(rest, Numbered(n)), n);
    }
  }

  lemma OneOfTwo(x: RelayMessage, m: RelayMessage, rest: seq<RelayMessage>, n: nat)
    requires x.seqno != m.seqno
    ensures Filter([x], Numbered(n)) + (Filter([m], Numbered(n)) + rest) ==
            Filter([m], Numbered(n)) + (Filter([x], Numbered(n)) + rest)
  {
    if x.seqno == n {
      FilterNone([m], Numbered(n));
    } else {
      FilterNone([x], Numbered(n));
    }
  }

  /** The messages are read by ascending sequence number, those of one number in the order of the batch. */
  lemma {:induction false} SortIsStable(messages: seq<RelayMessage>, n: nat)
    ensures forall i, j :: 0 <= i < j < |SortBySeq(messages)| ==> SortBySeq(messages)[i].seqno <= SortBySeq(messages)[j].seqno
    ensures multiset(SortBySeq(messages)) == multiset(messages)
    ensures Filter(SortBySeq(messages), Numbered(n)) == Filter(messages, Numbered(n))
    decreases |messages|
  {
    CatchUp.SortSorts(messages);
    if messages != [] {
      var m, rest := messages[0], messages[1..];
      assert messages == [m] + rest;
      SortIsStable(rest, n);
      InsertKeeps(m, SortBySeq(rest));
      InsertIsStable(m, SortBySeq(rest), n);
      FilterConcat([m], rest, Numbered(n));
    }
  }

  /** An ended session takes nothing in. */
  lemma AcceptWhenEnded(env: Env, s: Session, messages: seq<RelayMessage>)
    ensures !s.Active() ==> Accept(env, s, messages) == (s, Err(NotActive))
    ensures Accept(env, s, messages).1 == Ok([]) || s.Active() || Accept(env, s, messages).1 == Err(NotActive)
  {
  }

  // ---- sealing ----

  /** What the limits of the relay leave room for: 64 messages of 16 KiB and 64 KiB in all. */
  predicate Room(s: Session, bound: nat) {
    bound <= 16_384 && s.relayCount < 64 && s.relayBytes + bound <= 65_536
  }

  /** The bound of a sealed text: 16 bytes more than the plain one, four characters for three bytes, and four more. */
  lemma BoundMeans(env: Env, m: Message, k: nat)
    ensures env.jsonLen(m) + 16 == 3 * k ==> SealBound(env, m) == 4 * k + 4
    ensures 3 * k < env.jsonLen(m) + 16 <= 3 * k + 3 ==> SealBound(env, m) == 4 * k + 8
  {
  }

  /** A message is sealed when it fits and the channel is there, with the next number of the channel. */
  lemma SealMeans(env: Env, s: Session, m: Message)
    ensures !Room(s, SealBound(env, m)) ==> Seal(env, s, m) == (s, Err(TooLarge))
    ensures Room(s, SealBound(env, m)) && s.channel.None? ==> Seal(env, s, m) == (s, Err(NoChannel))
    ensures Room(s, SealBound(env, m)) && s.channel.Some? ==>
      var channel := s.channel.value;
      var payload := Sealed(channel.id, channel.side, channel.sent, Json(m));
      Seal(env, s, m) ==
        (s.(channel := Some(Channel(channel.id, channel.side, channel.sent + 1, channel.received)),
            relayCount := s.relayCount + 1, relayBytes := SaturatingAdd(s.relayBytes, PayloadLen(env, payload))),
         Ok(Outgoing(payload, s.relayCount, s.relayBytes)))
  {
  }

  /** The typed text reads as the check code of the session. */
  predicate TypedRight(s: Session, typed: string) {
    s.code.Some? && Text.ParseU8(Text.Trim(typed)) == Some(s.code.value)
  }

  /** What a typed code does before anything is sealed. */
  lemma ConfirmAnswers(env: Env, s: Session, typed: string)
    ensures !s.Active() ==> Confirm(env, s, typed) == (s, Err(NotActive))
    ensures s.Active() && s.code.None? ==> Confirm(env, s, typed) == (s, Err(NoChannel))
    ensures s.Active() && s.code.Some? && !TypedRight(s, typed) ==>
      Confirm(env, s, typed) == (EndedFor(s, WrongCode), Err(CodeIsWrong))
    ensures s.Active() && TypedRight(s, typed) && s.ownConfirmed ==> Confirm(env, s, typed) == (s, Ok(None))
    ensures s.Active() && TypedRight(s, typed) && !s.ownConfirmed && s.role == Joiner ==>
      Confirm(env, s, typed) == (s.(ownConfirmed := true), Ok(None))
    ensures s.Active() && TypedRight(s, typed) && !s.ownConfirmed && s.role == Creator && s.master.None? ==>
      Confirm(env, s, typed) == (s, Err(NoIdentity))
  {
  }

  /** The right code of the holder seals its offer; when that fails, the code can be typed again. */
  lemma ConfirmOffers(env: Env, s: Session, typed: string)
    requires s.Active() && TypedRight(s, typed) && !s.ownConfirmed && s.role == Creator && s.master.Some?
    ensures var (s', r) := Seal(env, s, Offer(1, [WireNetwork(s.network, s.master.value)], []));
      && (r.Err? ==> Confirm(env, s, typed) == (s, Err(r.error)))
      && (r.Ok? ==> Confirm(env, s, typed) == (s'.(ownConfirmed := true, offerSent := true), Ok(Some(r.value))))
  {
  }

  /** The joiner seals its join once: after its code, with the offer there. A failed seal loses the networks left out. */
  lemma SealJoinMeans(env: Env, s: Session, signature: Signature)
    ensures var ready := s.role == Joiner && s.stage == Keyed && s.ownConfirmed && s.master.Some? && !s.joinSent;
      && (!ready ==> SealJoin(env, s, signature) == (s, Err(NotConfirmed)))
      && (ready && s.ownDevice.None? ==> SealJoin(env, s, signature) == (s, Err(NoIdentity)))
      && (ready && s.ownDevice.Some? ==>
            var own := s.ownDevice.value;
            var (s', r) := Seal(env, s.(skipped := []),
              Join(1, [WireJoined(s.network, own.curve25519, own.ed25519, signature)], s.skipped));
            && (r.Err? ==> SealJoin(env, s, signature) == (s.(skipped := []), r))
            && (r.Ok? ==> SealJoin(env, s, signature) == (s'.(joinSent := true), r)))
  {
  }

  /** The only way to a device that the holder signs for: an open channel, the right code, the offer and a join. */
  lemma ConfirmedDeviceMeans(s: Session, device: Device)
    ensures ConfirmedDevice(s) == Some(device) <==>
      s.role == Creator && s.stage == Keyed && s.ownConfirmed && s.offerSent && s.peerDevice == Some(device)
  {
  }

  /** The device signed the id text of its own curve key and the master of the holder, with its own key. */
  lemma PeerSignatureMeans(s: Session)
    ensures PeerIdSignatureValid(s) <==>
      s.peerDevice.Some? && s.peerIdSig.Some? && s.master.Some?
      && W.IsKeyText(s.peerDevice.value.ed25519)
      && s.peerIdSig.value == Sig(s.peerDevice.value.ed25519,
           "irc-e2e:v2:id:" + (s.peerDevice.value.curve25519 + ":" + s.master.value))
  {
  }

  /** The answer with a grant, a refusal with one of four reasons, and `done`. */
  lemma SealAnswersMean(env: Env, s: Session, grant: Grant, reason: string)
    ensures ConfirmedDevice(s).None? ==>
      SealSigned(env, s, grant) == (s, Err(NotConfirmed)) && SealRefusal(env, s, reason) == (s, Err(NotConfirmed))
    ensures ConfirmedDevice(s).Some? ==>
      SealSigned(env, s, grant) == Seal(env, s, Signed(1,
        [WireSigned(s.network, grant.certificate.signature,
           WireList(grant.list.version, grant.list.keys, grant.list.signature))], []))
    ensures reason != "full" && reason != "paired" && reason != "list-changed" && reason != "failed" ==>
      SealRefusal(env, s, reason) == (s, Err(NotConfirmed))
    ensures s.role == Creator || !s.joinSent ==> SealDone(env, s) == (s, Err(NotConfirmed))
    ensures s.role == Joiner && s.joinSent ==> SealDone(env, s) == Seal(env, s, Done(1, [s.network]))
  {
  }

  /** A refusal that is sealed ends the session as failed; one that is not sealed changes nothing. */
  lemma RefusalMeans(env: Env, s: Session, reason: string)
    requires ConfirmedDevice(s).Some?
    requires reason == "full" || reason == "paired" || reason == "list-changed" || reason == "failed"
    ensures var (s', r) := Seal(env, s, Signed(1, [], [WireReason(s.network, reason)]));
      && (r.Err? ==> SealRefusal(env, s, reason) == (s, r))
      && (r.Ok? ==> SealRefusal(env, s, reason) == (EndedFor(s', Failed), r))
  {
  }

  // ---- what the user sees ----

  /** The code is shown, with two digits, while the channel is open and the code is not typed here. */
  lemma StatusMeans(s: Session)
    ensures StatusOf(s) == Waiting <==> s.stage == Open
    ensures s.stage == Keyed && s.code.Some? && !s.ownConfirmed ==> StatusOf(s) == ShowCode(Text.Padded(s.code.value, 2))
    ensures StatusOf(s) == AwaitingPeer <==> s.stage == Keyed && (s.code.None? || s.ownConfirmed)
    ensures StatusOf(s) == StatusDone <==> s.stage == Finished
    ensures forall reason :: StatusOf(s) == StatusEnded(reason) <==> s.stage == Ended(reason)
  {
  }
}
