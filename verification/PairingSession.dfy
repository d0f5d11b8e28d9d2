/** The session object: each method changes the fields in place as its step of `PairingSpec` says. */
module PairingSessions {
  import opened Base
  import opened Devices
  import opened PairingTypes
  import Spec = PairingSpec
  import Text
  import W = Wire

  /** The loop over the sorted messages, cut at message `i`. */
  lemma AcceptedSoFar(env: Env, s: Spec.Session, sorted: seq<RelayMessage>, i: nat, events: seq<FlowEvent>)
    requires i < |sorted|
    ensures Spec.Before(events, Spec.AcceptSorted(env, s, sorted[i..])) ==
      match Spec.AcceptOne(env, s, sorted[i])
      case (s', Err(e)) => (s', Err(e))
      case (s', Ok(event)) => Spec.Before(events + Spec.EventList(event), Spec.AcceptSorted(env, s', sorted[i + 1..]))
  {
    assert sorted[i..][0] == sorted[i] && sorted[i..][1..] == sorted[i + 1..];
    match Spec.AcceptOne(env, s, sorted[i])
    case (s', Err(e)) =>
    case (s', Ok(event)) =>
      match Spec.AcceptSorted(env, s', sorted[i + 1..]).1
      case Ok(more) => assert events + (Spec.EventList(event) + more) == (events + Spec.EventList(event)) + more;
      case Err(_) =>
  }

  class PairingSession {
    const role: Role
    const rendezvousId: string
    const eligible: seq<string>
    const startedAt: int
    var network: string
    var stage: Spec.Stage
    var waiting: Option<string>
    var channel: Option<Channel>
    var ownDevice: Option<Device>
    var peerDevice: Option<Device>
    var peerIdSig: Option<Signature>
    var master: Option<string>
    var skipped: seq<WireReason>
    var offerSent: bool
    var joinSent: bool
    var code: Option<CheckCode>
    var ownConfirmed: bool
    var lastSeq: nat
    var relayCount: nat
    var relayBytes: nat

    function State(): Spec.Session
      reads this
    {
      Spec.Session(role, rendezvousId, network, eligible, startedAt, stage, waiting, channel, ownDevice, peerDevice,
        peerIdSig, master, skipped, offerSent, joinSent, code, ownConfirmed, lastSeq, relayCount, relayBytes)
    }

    /** A session in the state `s`: what the creator and the joiner side start from. */
    constructor (s: Spec.Session)
      ensures State() == s
    {
      role, rendezvousId, network, eligible, startedAt := s.role, s.rendezvousId, s.network, s.eligible, s.startedAt;
      stage, waiting, channel, ownDevice, peerDevice := s.stage, s.waiting, s.channel, s.ownDevice, s.peerDevice;
      peerIdSig, master, skipped, offerSent, joinSent := s.peerIdSig, s.master, s.skipped, s.offerSent, s.joinSent;
      code, ownConfirmed, lastSeq, relayCount, relayBytes := s.code, s.ownConfirmed, s.lastSeq, s.relayCount, s.relayBytes;
    }

    predicate IsActive()
      reads this
    {
      stage == Spec.Open || stage == Spec.Keyed
    }

    method End(reason: EndReason)
      modifies this
      ensures State() == Spec.End(old(State()), reason)
    {
      if IsActive() {
        stage := Spec.Ended(reason);
      }
      waiting := None;
      channel := None;
    }

    method Finish()
      modifies this
      ensures State() == Spec.Finish(old(State()))
    {
      if IsActive() {
        stage := Spec.Finished;
      }
      waiting := None;
      channel := None;
    }

    method Expire(now: int) returns (ended: bool)
      modifies this
      ensures (State(), ended) == Spec.Expire(old(State()), now)
    {
      if IsActive() && SaturatingSub(now, startedAt) >= W.PAIRING_LIFETIME_SECS {
        End(Timeout);
        return true;
      }
      return false;
    }

    method SetMaster(key: string) returns (r: Result<(), FlowError>)
      modifies this
      ensures (State(), r) == Spec.SetMaster(old(State()), key)
    {
      if !W.IsKeyText(key) {
        return Err(NoIdentity);
      }
      master := Some(key);
      return Ok(());
    }

    method BindDevice(device: Device)
      modifies this
      ensures State() == old(State()).(ownDevice := Some(device))
    {
      ownDevice := Some(device);
    }

    // ---- taking messages in ----

    method Accept(env: Env, messages: seq<RelayMessage>) returns (r: Result<seq<FlowEvent>, FlowError>)
      modifies this
      ensures (State(), r) == Spec.Accept(env, old(State()), messages)
    {
      if !IsActive() {
        return Err(NotActive);
      }
      var sorted := Spec.SortBySeq(messages);
      var events := [];
      ghost var whole := Spec.AcceptSorted(env, State(), sorted);
      Spec.BeforeNothing(whole);
      assert sorted[0..] == sorted;
      for i := 0 to |sorted|
        invariant Spec.Before(events, Spec.AcceptSorted(env, State(), sorted[i..])) == whole
      {
        AcceptedSoFar(env, State(), sorted, i, events);
        var taken := AcceptOne(env, sorted[i]);
        if taken.Err? {
          return Err(taken.error);
        }
        if taken.value.Some? {
          events := events + [taken.value.value];
        } else {
          assert events + [] == events;
        }
      }
      assert sorted[|sorted|..] == [];
      return Ok(events);
    }

    method AcceptOne(env: Env, m: RelayMessage) returns (r: Result<Option<FlowEvent>, FlowError>)
      modifies this
      ensures (State(), r) == Spec.AcceptOne(env, old(State()), m)
    {
      if m.seqno <= lastSeq {
        return Ok(None);
      }
      lastSeq := m.seqno;
      if m.from == role {
        return Ok(None);
      }
      if PayloadLen(env, m.payload) > W.PAIRING_MESSAGE_MAX_BYTES {
        End(BadMessage);
        return Err(MessageIsBad);
      }
      relayCount := relayCount + 1;
      relayBytes := SaturatingAdd(relayBytes, PayloadLen(env, m.payload));
      r := TakeIn(env, m.payload);
    }

    method TakeIn(env: Env, payload: Payload) returns (r: Result<Option<FlowEvent>, FlowError>)
      modifies this
      ensures (State(), r) == Spec.TakeIn(env, old(State()), payload)
    {
      match stage {
        case Open => r := TakeHello(env, payload);
        case Keyed => r := TakeSealed(payload);
        case Finished => return Ok(None);
        case Ended(_) => return Ok(None);
      }
    }

    method TakeHello(env: Env, payload: Payload) returns (r: Result<Option<FlowEvent>, FlowError>)
      modifies this
      ensures (State(), r) == Spec.TakeHello(env, old(State()), payload)
    {
      var ecies := waiting;
      waiting := None;
      if ecies.None? || !payload.Initial? || payload.creatorKey != ecies.value {
        End(BadChannel);
        return Err(ChannelIsBad);
      }
      var wire := ReadWire(payload.plain);
      if wire.None? || !wire.value.Hello? {
        End(BadChannel);
        return Err(ChannelIsBad);
      }
      var id := ChannelId(payload.creatorKey, payload.joinerKey);
      code := Some(env.code(id));
      channel := Some(Channel(id, Creator, 0, 1));
      stage := Spec.Keyed;
      return Ok(Some(CodeReady));
    }

    method TakeSealed(payload: Payload) returns (r: Result<Option<FlowEvent>, FlowError>)
      modifies this
      ensures (State(), r) == Spec.TakeSealed(old(State()), payload)
    {
      if !payload.Sealed? && !payload.std {
        End(BadMessage);
        return Err(MessageIsBad);
      }
      if channel.None? {
        End(BadChannel);
        return Err(ChannelIsBad);
      }
      var c := channel.value;
      if !(payload.Sealed? && payload.id == c.id && payload.from == Peer(c.side) && payload.n == c.received) {
        End(BadChannel);
        return Err(ChannelIsBad);
      }
      channel := Some(c.(received := c.received + 1));
      match (role, ReadWire(payload.plain)) {
        case (Joiner, Some(Offer(_, networks, _))) => r := TakeOffer(networks);
        case (Creator, Some(Join(_, joined, _))) => r := TakeJoin(joined);
        case (Joiner, Some(Signed(_, signed, _))) => r := TakeSigned(signed);
        case (Creator, Some(Done(_, paired))) =>
          if offerSent && network in paired {
            return Ok(Some(Paired));
          }
          End(Failed);
          return Err(MessageIsBad);
        case _ =>
          End(BadMessage);
          return Err(MessageIsBad);
      }
    }

    method TakeOffer(networks: seq<WireNetwork>) returns (r: Result<Option<FlowEvent>, FlowError>)
      modifies this
      ensures (State(), r) == Spec.TakeOffer(old(State()), networks)
    {
      if master.Some? {
        End(BadMessage);
        return Err(MessageIsBad);
      }
      network := Spec.ChosenNetwork(State(), networks);
      var offered: Option<string> := None;
      var left := [];
      for i := 0 to |networks|
        invariant offered == Spec.OfferedMaster(networks[..i], network)
        invariant left == Spec.LeftOut(networks[..i], network)
      {
        var item := networks[i];
        assert networks[..i + 1][..i] == networks[..i] && networks[..i + 1][i] == item;
        if item.network == network {
          offered := Some(item.master);
        } else {
          left := left + [WireReason(item.network, "failed")];
        }
      }
      assert networks[..|networks|] == networks;
      if offered.None? {
        End(Failed);
        return Err(NotOffered);
      }
      master := offered;
      skipped := left;
      return Ok(Some(Offered));
    }

    method TakeJoin(joined: seq<WireJoined>) returns (r: Result<Option<FlowEvent>, FlowError>)
      modifies this
      ensures (State(), r) == Spec.TakeJoin(old(State()), joined)
    {
      var entry := Spec.FindJoined(joined, network);
      if entry.None? {
        End(Failed);
        return Err(Refused);
      }
      if !offerSent || peerDevice.Some? {
        End(BadMessage);
        return Err(MessageIsBad);
      }
      peerDevice := Some(Device(entry.value.ed25519, entry.value.curve25519));
      peerIdSig := Some(entry.value.sig);
      return Ok(Some(Joined));
    }

    method TakeSigned(signed: seq<WireSigned>) returns (r: Result<Option<FlowEvent>, FlowError>)
      modifies this
      ensures (State(), r) == Spec.TakeSigned(old(State()), signed)
    {
      var found := Spec.FindSigned(signed, network);
      if found.None? || master.None? || ownDevice.None? {
        End(Failed);
        return Err(Refused);
      }
      var entry := found.value;
      var certificate := Certificate(entry.list.ver, ownDevice.value.ed25519, master.value, entry.cert);
      var list := SignedList(entry.list.ver, entry.list.devices, entry.list.sig);
      return Ok(Some(SignedAnswer(Grant(master.value, certificate, list))));
    }

    // ---- sealing and confirming ----

    method Seal(env: Env, wire: Message) returns (r: Result<Outgoing, FlowError>)
      modifies this
      ensures (State(), r) == Spec.Seal(env, old(State()), wire)
    {
      if !W.PairingMessageFits(relayCount, relayBytes, Spec.SealBound(env, wire)) {
        return Err(TooLarge);
      }
      if channel.None? {
        return Err(NoChannel);
      }
      var c := channel.value;
      var payload := Sealed(c.id, c.side, c.sent, Json(wire));
      channel := Some(c.(sent := c.sent + 1));
      r := Ok(Outgoing(payload, relayCount, relayBytes));
      relayCount := relayCount + 1;
      relayBytes := SaturatingAdd(relayBytes, PayloadLen(env, payload));
    }

    method Confirm(env: Env, typed: string) returns (r: Result<Option<Outgoing>, FlowError>)
      modifies this
      ensures (State(), r) == Spec.Confirm(env, old(State()), typed)
    {
      if !IsActive() {
        return Err(NotActive);
      }
      if code.None? {
        return Err(NoChannel);
      }
      if Text.ParseU8(Text.Trim(typed)) != Some(code.value) {
        End(WrongCode);
        return Err(CodeIsWrong);
      }
      if ownConfirmed {
        return Ok(None);
      }
      if role == Joiner {
        ownConfirmed := true;
        return Ok(None);
      }
      if master.None? {
        return Err(NoIdentity);
      }
      var outgoing := Seal(env, Offer(WIRE_VERSION, [WireNetwork(network, master.value)], []));
      if outgoing.Err? {
        return Err(outgoing.error);
      }
      ownConfirmed := true;
      offerSent := true;
      return Ok(Some(outgoing.value));
    }

    method SealJoin(env: Env, signature: Signature) returns (r: Result<Outgoing, FlowError>)
      modifies this
      ensures (State(), r) == Spec.SealJoin(env, old(State()), signature)
    {
      if !Spec.JoinReady(State()) {
        return Err(NotConfirmed);
      }
      if ownDevice.None? {
        return Err(NoIdentity);
      }
      var own := ownDevice.value;
      var wire := Join(WIRE_VERSION, [WireJoined(network, own.curve25519, own.ed25519, signature)], skipped);
      skipped := [];
      r := Seal(env, wire);
      if r.Ok? {
        joinSent := true;
      }
    }

    method SealSigned(env: Env, grant: Grant) returns (r: Result<Outgoing, FlowError>)
      modifies this
      ensures (State(), r) == Spec.SealSigned(env, old(State()), grant)
    {
      if Spec.ConfirmedDevice(State()).None? {
        return Err(NotConfirmed);
      }
      r := Seal(env, Spec.SignedMessage(network, grant));
    }

    method SealRefusal(env: Env, reason: string) returns (r: Result<Outgoing, FlowError>)
      modifies this
      ensures (State(), r) == Spec.SealRefusal(env, old(State()), reason)
    {
      if Spec.ConfirmedDevice(State()).None? || reason !in REFUSAL_REASONS {
        return Err(NotConfirmed);
      }
      r := Seal(env, Signed(WIRE_VERSION, [], [WireReason(network, reason)]));
      if r.Ok? {
        End(Failed);
      }
    }

    method SealDone(env: Env) returns (r: Result<Outgoing, FlowError>)
      modifies this
      ensures (State(), r) == Spec.SealDone(env, old(State()))
    {
      if role != Joiner || !joinSent {
        return Err(NotConfirmed);
      }
      r := Seal(env, Done(WIRE_VERSION, [network]));
    }
  }
}
