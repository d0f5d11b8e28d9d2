/** What every reachable session keeps, whatever steps the driver takes and in whatever order. */
module PairingLaws {
  import opened Base
  import opened Devices
  import opened PairingTypes
  import opened PairingSpec
  import Text
  import W = Wire

  /** Every public step of a session. */
  datatype Op =
    | OpAccept(messages: seq<RelayMessage>)
    | OpConfirm(typed: string)
    | OpEnd(reason: EndReason)
    | OpExpire(now: int)
    | OpSetMaster(key: string)
    | OpBind(device: Device)
    | OpSealJoin(signature: Signature)
    | OpSealSigned(grant: Grant)
    | OpSealRefusal(why: string)
    | OpSealDone
    | OpFinish

  function Apply(env: Env, s: Session, op: Op): Session {
    match op
    case OpAccept(messages) => Accept(env, s, messages).0
    case OpConfirm(typed) => Confirm(env, s, typed).0
    case OpEnd(reason) => End(s, reason)
    case OpExpire(now) => Expire(s, now).0
    case OpSetMaster(key) => SetMaster(s, key).0
    case OpBind(device) => s.(ownDevice := Some(device))
    case OpSealJoin(signature) => SealJoin(env, s, signature).0
    case OpSealSigned(grant) => SealSigned(env, s, grant).0
    case OpSealRefusal(why) => SealRefusal(env, s, why).0
    case OpSealDone => SealDone(env, s).0
    case OpFinish => Finish(s)
  }

  function Run(env: Env, s: Session, ops: seq<Op>): Session
    decreases |ops|
  {
    if ops == [] then s else Run(env, Apply(env, s, ops[0]), ops[1..])
  }

  /** The states from which a session starts. */
  ghost predicate Started(env: Env, s: Session) {
    || (exists role, id, network, ephemeral, now ::
          Create(role, id, network, ephemeral, now).Ok? && s == Create(role, id, network, ephemeral, now).value.0)
    || (exists link, role, id, network, eligible, device, ephemeral, std, now ::
          JoinAny(env, link, role, id, network, eligible, device, ephemeral, std, now).Ok?
          && s == JoinAny(env, link, role, id, network, eligible, device, ephemeral, std, now).value.0)
  }

  /**
   * An active session holds exactly one of its ephemeral key and its channel, an ended one neither. The
   * channel belongs to its side and gives its code. The flags are in their order.
   */
  ghost predicate WellFormed(env: Env, s: Session) {
    && (s.stage == Open ==> s.role == Creator && s.waiting.Some? && s.channel.None? && s.code.None?)
    && (s.stage == Keyed ==> s.waiting.None? && s.channel.Some? && s.code == Some(env.code(s.channel.value.id)))
    && (!s.Active() ==> s.waiting.None? && s.channel.None?)
    && (s.channel.Some? ==> s.channel.value.side == s.role)
    && FlagsInOrder(s)
  }

  ghost predicate FlagsInOrder(s: Session) {
    && (s.role == Creator ==> (s.offerSent <==> s.ownConfirmed) && !s.joinSent)
    && (s.role == Joiner ==> !s.offerSent && s.peerDevice.None?)
    && (s.offerSent ==> s.master.Some?)
    && (s.ownConfirmed ==> s.code.Some?)
    && (s.peerDevice.Some? <==> s.peerIdSig.Some?)
    && (s.peerDevice.Some? ==> s.offerSent)
    && (s.joinSent ==> s.ownConfirmed && s.master.Some?)
  }

  /** Reading a payload leaves the totals alone, and an error ends the session. */
  ghost predicate Reads(s: Session, taken: Taken) {
    && taken.0.relayCount == s.relayCount && taken.0.relayBytes == s.relayBytes
    && taken.0.lastSeq == s.lastSeq && taken.0.role == s.role
    && (taken.1.Err? ==> !taken.0.Active())
  }

  /** The first end reason, or `Finished`, stays. */
  ghost predicate EndStays(s: Session, s': Session) {
    !s.Active() ==> s'.stage == s.stage
  }

  lemma EndKeeps(env: Env, s: Session, reason: EndReason)
    requires FlagsInOrder(s) && (s.channel.Some? ==> s.channel.value.side == s.role)
    ensures WellFormed(env, End(s, reason)) && EndStays(s, End(s, reason))
  {
  }

  lemma TakeHelloKeeps(env: Env, s: Session, payload: Payload)
    requires WellFormed(env, s) && s.stage == Open
    ensures WellFormed(env, TakeHello(env, s, payload).0) && Reads(s, TakeHello(env, s, payload))
  {
    EndKeeps(env, s.(waiting := None), BadChannel);
  }

  lemma TakeOfferKeeps(env: Env, s: Session, networks: seq<WireNetwork>)
    requires WellFormed(env, s) && s.stage == Keyed && s.role == Joiner
    ensures WellFormed(env, TakeOffer(s, networks).0) && Reads(s, TakeOffer(s, networks))
  {
    var named := s.(network := ChosenNetwork(s, networks));
    EndKeeps(env, named, Failed);
    EndKeeps(env, s, BadMessage);
  }

  lemma TakeJoinKeeps(env: Env, s: Session, joined: seq<WireJoined>)
    requires WellFormed(env, s) && s.stage == Keyed && s.role == Creator
    ensures WellFormed(env, TakeJoin(s, joined).0) && Reads(s, TakeJoin(s, joined))
  {
    EndKeeps(env, s, Failed);
    EndKeeps(env, s, BadMessage);
  }

  lemma TakePlainKeeps(env: Env, s: Session, plain: Plain)
    requires WellFormed(env, s) && s.stage == Keyed
    ensures WellFormed(env, TakePlain(s, plain).0) && Reads(s, TakePlain(s, plain))
  {
    match (s.role, ReadWire(plain))
    case (Joiner, Some(Offer(_, networks, _))) => TakeOfferKeeps(env, s, networks);
    case (Creator, Some(Join(_, joined, _))) => TakeJoinKeeps(env, s, joined);
    case _ =>
      EndKeeps(env, s, Failed);
      EndKeeps(env, s, BadMessage);
  }

  lemma TakeSealedKeeps(env: Env, s: Session, payload: Payload)
    requires WellFormed(env, s) && s.stage == Keyed
    ensures WellFormed(env, TakeSealed(s, payload).0) && Reads(s, TakeSealed(s, payload))
  {
    if !payload.Sealed? && !payload.std {
      EndKeeps(env, s, BadMessage);
    } else if !Opens(s.channel.value, payload) {
      EndKeeps(env, s, BadChannel);
    } else {
      assert WellFormed(env, Opened(s));
      TakePlainKeeps(env, Opened(s), payload.plain);
    }
  }

  lemma TakeInKeeps(env: Env, s: Session, payload: Payload)
    requires WellFormed(env, s)
    ensures WellFormed(env, TakeIn(env, s, payload).0) && EndStays(s, TakeIn(env, s, payload).0)
    ensures Reads(s, TakeIn(env, s, payload))
  {
    match s.stage
    case Open => TakeHelloKeeps(env, s, payload);
    case Keyed => TakeSealedKeeps(env, s, payload);
    case _ =>
  }

  lemma AcceptOneKeeps(env: Env, s: Session, m: RelayMessage)
    requires WellFormed(env, s)
    ensures WellFormed(env, AcceptOne(env, s, m).0) && EndStays(s, AcceptOne(env, s, m).0)
    ensures AcceptOne(env, s, m).1.Err? ==> !AcceptOne(env, s, m).0.Active()
  {
    EndKeeps(env, s.(lastSeq := m.seqno), BadMessage);
    TakeInKeeps(env, Counted(env, s, m), m.payload);
  }

  lemma {:induction false} AcceptSortedKeeps(env: Env, s: Session, sorted: seq<RelayMessage>)
    requires WellFormed(env, s)
    ensures WellFormed(env, AcceptSorted(env, s, sorted).0) && EndStays(s, AcceptSorted(env, s, sorted).0)
    ensures AcceptSorted(env, s, sorted).1.Err? ==> !AcceptSorted(env, s, sorted).0.Active()
    decreases |sorted|
  {
    if sorted != [] {
      AcceptOneKeeps(env, s, sorted[0]);
      AcceptSortedKeeps(env, AcceptOne(env, s, sorted[0]).0, sorted[1..]);
    }
  }

  /** Any error of the catch-up leaves the session ended. */
  lemma AcceptErrorEnds(env: Env, s: Session, messages: seq<RelayMessage>)
    requires WellFormed(env, s) && Accept(env, s, messages).1.Err?
    ensures !Accept(env, s, messages).0.Active()
  {
    AcceptSortedKeeps(env, s, SortBySeq(messages));
  }

  lemma SealKeeps(env: Env, s: Session, m: Message)
    requires WellFormed(env, s)
    ensures WellFormed(env, Seal(env, s, m).0) && Seal(env, s, m).0.stage == s.stage
  {
  }

  lemma ConfirmKeeps(env: Env, s: Session, typed: string)
    requires WellFormed(env, s)
    ensures WellFormed(env, Confirm(env, s, typed).0) && EndStays(s, Confirm(env, s, typed).0)
  {
    EndKeeps(env, s, WrongCode);
    if s.role == Creator && s.master.Some? {
      SealKeeps(env, s, Offer(WIRE_VERSION, [WireNetwork(s.network, s.master.value)], []));
    }
  }

  lemma SealJoinKeeps(env: Env, s: Session, signature: Signature)
    requires WellFormed(env, s)
    ensures WellFormed(env, SealJoin(env, s, signature).0) && EndStays(s, SealJoin(env, s, signature).0)
  {
    if JoinReady(s) && s.ownDevice.Some? {
      var own := s.ownDevice.value;
      SealKeeps(env, s.(skipped := []),
        Join(WIRE_VERSION, [WireJoined(s.network, own.curve25519, own.ed25519, signature)], s.skipped));
    }
  }

  lemma SealRefusalKeeps(env: Env, s: Session, why: string)
    requires WellFormed(env, s)
    ensures WellFormed(env, SealRefusal(env, s, why).0) && EndStays(s, SealRefusal(env, s, why).0)
  {
    var m := Signed(WIRE_VERSION, [], [WireReason(s.network, why)]);
    SealKeeps(env, s, m);
    EndKeeps(env, Seal(env, s, m).0, Failed);
  }

  lemma ApplyKeeps(env: Env, s: Session, op: Op)
    requires WellFormed(env, s)
    ensures WellFormed(env, Apply(env, s, op)) && EndStays(s, Apply(env, s, op))
  {
    match op
    case OpAccept(messages) => AcceptSortedKeeps(env, s, SortBySeq(messages));
    case OpConfirm(typed) => ConfirmKeeps(env, s, typed);
    case OpEnd(reason) => EndKeeps(env, s, reason);
    case OpExpire(now) => EndKeeps(env, s, Timeout);
    case OpSealJoin(signature) => SealJoinKeeps(env, s, signature);
    case OpSealSigned(grant) => SealKeeps(env, s, SignedMessage(s.network, grant));
    case OpSealRefusal(why) => SealRefusalKeeps(env, s, why);
    case OpSealDone => SealKeeps(env, s, Done(WIRE_VERSION, [s.network]));
    case _ =>
  }

  /**
   * Every session that is created or joined, after any steps in any order, has its representation in
   * order; and once it ended or finished, no later step changes why.
   */
  lemma {:induction false} RunKeeps(env: Env, s: Session, ops: seq<Op>)
    requires WellFormed(env, s)
    ensures WellFormed(env, Run(env, s, ops)) && EndStays(s, Run(env, s, ops))
    decreases |ops|
  {
    if ops != [] {
      ApplyKeeps(env, s, ops[0]);
      RunKeeps(env, Apply(env, s, ops[0]), ops[1..]);
    }
  }

  lemma ReachableIsWellFormed(env: Env, s: Session, ops: seq<Op>, more: seq<Op>)
    requires Started(env, s)
    ensures WellFormed(env, Run(env, s, ops))
    ensures !Run(env, s, ops).Active() ==> Run(env, Run(env, s, ops), more).stage == Run(env, s, ops).stage
  {
    RunKeeps(env, s, ops);
    RunKeeps(env, Run(env, s, ops), more);
  }

  // ---- the totals of the relay ----

  /** The payloads of the peer in a sorted batch that the session has not seen, each one once. */
  function Fresh(last: nat, role: Role, sorted: seq<RelayMessage>): seq<Payload>
    decreases |sorted|
  {
    if sorted == [] then []
    else if sorted[0].seqno <= last then Fresh(last, role, sorted[1..])
    else (if sorted[0].from == role then [] else [sorted[0].payload]) + Fresh(sorted[0].seqno, role, sorted[1..])
  }

  /** What one step seals for the relay or takes from it. */
  function Carried(env: Env, s: Session, op: Op): seq<Payload> {
    match op
    case OpAccept(messages) => if s.Active() then Fresh(s.lastSeq, s.role, SortBySeq(messages)) else []
    case OpConfirm(typed) =>
      (match Confirm(env, s, typed).1 case Ok(Some(out)) => [out.payload] case _ => [])
    case OpSealJoin(signature) => SealedBy(SealJoin(env, s, signature).1)
    case OpSealSigned(grant) => SealedBy(SealSigned(env, s, grant).1)
    case OpSealRefusal(why) => SealedBy(SealRefusal(env, s, why).1)
    case OpSealDone => SealedBy(SealDone(env, s).1)
    case _ => []
  }

  function SealedBy(r: Result<Outgoing, FlowError>): seq<Payload> {
    match r case Ok(out) => [out.payload] case Err(_) => []
  }

  function CarriedAll(env: Env, s: Session, ops: seq<Op>): seq<Payload>
    decreases |ops|
  {
    if ops == [] then [] else Carried(env, s, ops[0]) + CarriedAll(env, Apply(env, s, ops[0]), ops[1..])
  }

  function TotalLen(env: Env, payloads: seq<Payload>): nat {
    if payloads == [] then 0 else PayloadLen(env, payloads[0]) + TotalLen(env, payloads[1..])
  }

  lemma {:induction false} TotalLenConcat(env: Env, a: seq<Payload>, b: seq<Payload>)
    ensures TotalLen(env, a + b) == TotalLen(env, a) + TotalLen(env, b)
  {
    if a == [] {
      assert a + b == b;
    } else {
      assert (a + b)[1..] == a[1..] + b;
      TotalLenConcat(env, a[1..], b);
    }
  }

  /** The totals of `s'` are those of `s` and these payloads. */
  ghost predicate Adds(env: Env, s: Session, payloads: seq<Payload>, s': Session) {
    && s'.relayCount == s.relayCount + |payloads|
    && s'.relayBytes == SaturatingAdd(s.relayBytes, TotalLen(env, payloads))
  }

  lemma AddsTwice(env: Env, s: Session, a: seq<Payload>, s1: Session, b: seq<Payload>, s2: Session)
    requires Adds(env, s, a, s1) && Adds(env, s1, b, s2)
    ensures Adds(env, s, a + b, s2)
  {
    TotalLenConcat(env, a, b);
  }

  lemma AcceptOneAdds(env: Env, s: Session, m: RelayMessage)
    requires WellFormed(env, s) && s.relayBytes <= USIZE_MAX && AcceptOne(env, s, m).1.Ok?
    requires s.Active()
    ensures var taken := if m.seqno > s.lastSeq && m.from != s.role then [m.payload] else [];
      Adds(env, s, taken, AcceptOne(env, s, m).0)
    ensures AcceptOne(env, s, m).0.relayBytes <= USIZE_MAX
    ensures AcceptOne(env, s, m).0.role == s.role
    ensures AcceptOne(env, s, m).0.lastSeq == if m.seqno > s.lastSeq then m.seqno else s.lastSeq
  {
    assert TotalLen(env, [m.payload]) == PayloadLen(env, m.payload) + TotalLen(env, []);
    TakeInKeeps(env, Counted(env, s, m), m.payload);
  }

  lemma {:induction false} AcceptSortedAdds(env: Env, s: Session, sorted: seq<RelayMessage>)
    requires WellFormed(env, s) && s.relayBytes <= USIZE_MAX
    requires AcceptSorted(env, s, sorted).1.Ok? && AcceptSorted(env, s, sorted).0.Active()
    ensures Adds(env, s, Fresh(s.lastSeq, s.role, sorted), AcceptSorted(env, s, sorted).0)
    ensures AcceptSorted(env, s, sorted).0.relayBytes <= USIZE_MAX
    decreases |sorted|
  {
    if sorted != [] {
      var m := sorted[0];
      var s' := AcceptOne(env, s, m).0;
      AcceptOneKeeps(env, s, m);
      AcceptSortedKeeps(env, s', sorted[1..]);
      AcceptOneAdds(env, s, m);
      AcceptSortedAdds(env, s', sorted[1..]);
      var taken := if m.seqno > s.lastSeq && m.from != s.role then [m.payload] else [];
      AddsTwice(env, s, taken, s', Fresh(s'.lastSeq, s'.role, sorted[1..]), AcceptSorted(env, s', sorted[1..]).0);
      assert taken == [] ==> taken + Fresh(s'.lastSeq, s'.role, sorted[1..]) == Fresh(s'.lastSeq, s'.role, sorted[1..]);
    }
  }

  lemma SealAdds(env: Env, s: Session, m: Message)
    requires s.relayBytes <= USIZE_MAX
    ensures Adds(env, s, SealedBy(Seal(env, s, m).1), Seal(env, s, m).0)
    ensures Seal(env, s, m).0.relayBytes <= USIZE_MAX
  {
    if Seal(env, s, m).1.Ok? {
      var payload := Seal(env, s, m).1.value.payload;
      assert TotalLen(env, [payload]) == PayloadLen(env, payload) + TotalLen(env, []);
    }
  }

  lemma AcceptAdds(env: Env, s: Session, messages: seq<RelayMessage>)
    requires WellFormed(env, s) && s.relayBytes <= USIZE_MAX
    requires Apply(env, s, OpAccept(messages)).Active()
    ensures Adds(env, s, Carried(env, s, OpAccept(messages)), Apply(env, s, OpAccept(messages)))
    ensures Apply(env, s, OpAccept(messages)).relayBytes <= USIZE_MAX
  {
    AcceptSortedKeeps(env, s, SortBySeq(messages));
    AcceptSortedAdds(env, s, SortBySeq(messages));
  }

  lemma ConfirmAdds(env: Env, s: Session, typed: string)
    requires WellFormed(env, s) && s.relayBytes <= USIZE_MAX
    ensures Adds(env, s, Carried(env, s, OpConfirm(typed)), Apply(env, s, OpConfirm(typed)))
    ensures Apply(env, s, OpConfirm(typed)).relayBytes <= USIZE_MAX
  {
    if s.master.Some? {
      SealAdds(env, s, Offer(WIRE_VERSION, [WireNetwork(s.network, s.master.value)], []));
    }
  }

  lemma JoinAdds(env: Env, s: Session, signature: Signature)
    requires s.relayBytes <= USIZE_MAX
    ensures Adds(env, s, Carried(env, s, OpSealJoin(signature)), Apply(env, s, OpSealJoin(signature)))
    ensures Apply(env, s, OpSealJoin(signature)).relayBytes <= USIZE_MAX
  {
    if s.ownDevice.Some? {
      var own := s.ownDevice.value;
      SealAdds(env, s.(skipped := []),
        Join(WIRE_VERSION, [WireJoined(s.network, own.curve25519, own.ed25519, signature)], s.skipped));
    }
  }

  lemma ApplyAdds(env: Env, s: Session, op: Op)
    requires WellFormed(env, s) && s.relayBytes <= USIZE_MAX
    requires Apply(env, s, op).Active() || !op.OpAccept?
    ensures Adds(env, s, Carried(env, s, op), Apply(env, s, op))
    ensures Apply(env, s, op).relayBytes <= USIZE_MAX
  {
    match op
    case OpAccept(messages) => AcceptAdds(env, s, messages);
    case OpConfirm(typed) => ConfirmAdds(env, s, typed);
    case OpSealJoin(signature) => JoinAdds(env, s, signature);
    case OpSealSigned(grant) => SealAdds(env, s, SignedMessage(s.network, grant));
    case OpSealRefusal(why) => SealAdds(env, s, Signed(WIRE_VERSION, [], [WireReason(s.network, why)]));
    case OpSealDone => SealAdds(env, s, Done(WIRE_VERSION, [s.network]));
    case _ =>
  }

  lemma {:induction false} ActiveBefore(env: Env, s: Session, ops: seq<Op>)
    requires WellFormed(env, s) && Run(env, s, ops).Active()
    ensures s.Active()
  {
    RunKeeps(env, s, ops);
  }

  /**
   * Relay accounting. While a session is active, after any steps, its totals have grown by exactly the
   * messages that it sealed and the new messages of the peer in its batches, each one once.
   */
  lemma {:induction false} Accounting(env: Env, s: Session, ops: seq<Op>)
    requires WellFormed(env, s) && s.relayBytes <= USIZE_MAX && Run(env, s, ops).Active()
    ensures Adds(env, s, CarriedAll(env, s, ops), Run(env, s, ops))
    decreases |ops|
  {
    if ops != [] {
      var s' := Apply(env, s, ops[0]);
      ApplyKeeps(env, s, ops[0]);
      ActiveBefore(env, s', ops[1..]);
      ApplyAdds(env, s, ops[0]);
      Accounting(env, s', ops[1..]);
      AddsTwice(env, s, Carried(env, s, ops[0]), s', CarriedAll(env, s', ops[1..]), Run(env, s', ops[1..]));
    }
  }

  /**
   * The size that `Seal` checks is 4 to 6 bytes above the real one, so the check of the client before the
   * post lets every sealed message through.
   */
  lemma SealedMessageFits(env: Env, s: Session, m: Message)
    requires Seal(env, s, m).1.Ok?
    ensures var out := Seal(env, s, m).1.value;
      && PayloadLen(env, out.payload) + 4 <= SealBound(env, m) <= PayloadLen(env, out.payload) + 6
      && W.PairingMessageFits(out.count, out.total, PayloadLen(env, out.payload))
      && out.count == s.relayCount && out.total == s.relayBytes
  {
  }

  /** What the window shows is the code of an active session that is not confirmed; typed back, it is right. */
  lemma ShownCodeConfirms(env: Env, s: Session)
    requires WellFormed(env, s) && StatusOf(s).ShowCode?
    ensures s.Active() && !s.ownConfirmed && s.code == Some(env.code(s.channel.value.id))
    ensures Confirm(env, s, StatusOf(s).text).1 != Err(CodeIsWrong)
  {
    Text.ShownCodeReadsBack(s.code.value);
  }
}
