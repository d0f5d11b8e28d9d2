/** A pairing ends: the relay holds at most five messages, and only so many steps change anything. */
module PairingTermination {
  import opened Base
  import opened Devices
  import opened Grants
  import opened PairingTypes
  import opened PairingSpec
  import opened PairingDriver
  import opened PairingHistory
  import A = PairingAgreement
  import CatchUp = PairingCatchUp
  import W = Wire

  // ---- the messages of one device ----

  /** What one device posted, in its order. */
  function Own(relay: seq<RelayMessage>, role: Role): seq<Payload> {
    if relay == [] then []
    else
      var last := relay[|relay| - 1];
      Own(relay[..|relay| - 1], role) + (if last.from == role then [last.payload] else [])
  }

  /** The number of a message at its end of the channel; the initial message counts as the first. */
  function Number(p: Payload): nat {
    if p.Sealed? then p.n else 0
  }

  ghost predicate Numbered(own: seq<Payload>) {
    forall i :: 0 <= i < |own| ==> Number(own[i]) == i
  }

  ghost predicate SeqsOk(relay: seq<RelayMessage>) {
    forall i :: 0 <= i < |relay| ==> relay[i].seqno == i + 1
  }

  lemma OwnAppend(relay: seq<RelayMessage>, m: RelayMessage, role: Role)
    ensures Own(relay + [m], role) == Own(relay, role) + (if m.from == role then [m.payload] else [])
  {
    assert (relay + [m])[..|relay|] == relay;
  }

  lemma {:induction false} OwnSplits(relay: seq<RelayMessage>)
    ensures |Own(relay, Creator)| + |Own(relay, Joiner)| == |relay|
  {
    if relay != [] {
      OwnSplits(relay[..|relay| - 1]);
    }
  }

  lemma {:induction false} OwnIsPosted(relay: seq<RelayMessage>, role: Role, p: Payload)
    requires p in Own(relay, role)
    ensures exists m :: m in relay && m.from == role && m.payload == p
  {
    var last := relay[|relay| - 1];
    if last.from != role || last.payload != p {
      OwnIsPosted(relay[..|relay| - 1], role, p);
    }
  }

  // ---- one driver step ----

  /** The channel of an active session sealed exactly what its device posted. */
  ghost predicate Paced(relay: seq<RelayMessage>, s: Session) {
    var own := Own(relay, s.role);
    && Numbered(own)
    && (s.channel.Some? <==> s.stage == Keyed)
    && (s.channel.Some? ==> s.channel.value.sent == |own|)
    && (s.stage == Open ==> own == [])
    && (!s.Active() ==> s.waiting.None?)
  }

  /** The log grew by numbered messages of `role` only. */
  ghost predicate Grows(relay: seq<RelayMessage>, relay': seq<RelayMessage>, role: Role) {
    && Numbered(Own(relay', role))
    && Own(relay', Peer(role)) == Own(relay, Peer(role))
    && (SeqsOk(relay) ==> SeqsOk(relay'))
    && |relay| <= |relay'|
  }

  /** No part of the progress of a session is undone. */
  ghost predicate OnwardSession(s: Session, s': Session) {
    && s'.role == s.role
    && s.lastSeq <= s'.lastSeq
    && (s'.Active() ==> s.Active())
    && (s.master.Some? ==> s'.master.Some?)
    && (s.ownConfirmed ==> s'.ownConfirmed)
    && (s.joinSent ==> s'.joinSent)
  }

  ghost predicate OnwardStore(store: Store, store': Store) {
    && (store'.slot.Some? ==> store.slot.Some?)
    && (store.account.Some? ==> store'.account.Some?)
  }

  ghost predicate Onward(side: Side, side': Side) {
    OnwardSession(side.session, side'.session) && OnwardStore(side.store, side'.store)
  }

  ghost predicate SlotWorks(luck: Luck) {
    forall i: nat :: luck(i, SaveSlot) == Works && luck(i, ClearSlot) == Works
  }

  ghost predicate SlotOk(side: Side) {
    side.store.slot.Some? <==> side.session.Active()
  }

  /** A driver step makes progress; when it succeeds, the channel and the slot are in step again. */
  ghost predicate Good(side: Side, relay: seq<RelayMessage>, d: Driven, luck: Luck) {
    && Onward(side, d.0) && d.0.session.lastSeq == side.session.lastSeq
    && Grows(relay, d.1.relay, side.session.role)
    && (d.2.Ok? ==> Paced(d.1.relay, d.0.session) && (SlotWorks(luck) && SlotOk(side) ==> SlotOk(d.0)))
  }

  /** What a step of the session seals is the next message of its channel. */
  ghost predicate SealsNext(s: Session, sealed: (Session, Result<Outgoing, FlowError>)) {
    && OnwardSession(s, sealed.0) && sealed.0.lastSeq == s.lastSeq
    && (sealed.1.Ok? ==>
          && s.channel.Some? && Number(sealed.1.value.payload) == s.channel.value.sent
          && (sealed.0.channel.Some? <==> sealed.0.stage == Keyed)
          && (sealed.0.channel.Some? ==> sealed.0.channel.value.sent == s.channel.value.sent + 1)
          && sealed.0.stage != Open && (sealed.0.Active() || sealed.0.waiting.None?))
  }

  /** The log grew by the next message of `role`. */
  lemma AppendGrows(relay: seq<RelayMessage>, role: Role, payload: Payload)
    requires Numbered(Own(relay, role)) && Number(payload) == |Own(relay, role)|
    ensures var relay' := relay + [RelayMessage(|relay| + 1, role, payload)];
      Grows(relay, relay', role) && |Own(relay', role)| == |Own(relay, role)| + 1
  {
    var m := RelayMessage(|relay| + 1, role, payload);
    OwnAppend(relay, m, role);
    OwnAppend(relay, m, Peer(role));
    assert Own(relay + [m], Peer(role)) == Own(relay, Peer(role));
    assert Own(relay + [m], role) == Own(relay, role) + [payload];
  }

  lemma PostGrows(env: Env, w: World, role: Role, out: Outgoing, outcome: Outcome)
    requires Numbered(Own(w.relay, role)) && Number(out.payload) == |Own(w.relay, role)|
    ensures var (w', r) := Post(env, w, role, out, outcome);
      && Grows(w.relay, w'.relay, role)
      && (r.Ok? ==> |Own(w'.relay, role)| == |Own(w.relay, role)| + 1)
  {
    AppendGrows(w.relay, role, out.payload);
    var w' := Post(env, w, role, out, outcome).0;
    assert w'.relay == w.relay || w'.relay == w.relay + [RelayMessage(|w.relay| + 1, role, out.payload)];
  }

  lemma PostSealedGood(env: Env, side: Side, w: World, sealed: (Session, Result<Outgoing, FlowError>), luck: Luck, i: nat)
    requires Paced(w.relay, side.session) && SealsNext(side.session, sealed)
    ensures var d := PostSealed(env, side, w, sealed, luck, i);
      && OnwardSession(side.session, d.0.session) && d.0 == side.(session := sealed.0)
      && d.0.session.lastSeq == side.session.lastSeq
      && Grows(w.relay, d.1.relay, side.session.role)
      && (d.2.Ok? ==> sealed.1.Ok? && Paced(d.1.relay, d.0.session))
  {
    if sealed.1.Ok? {
      PostGrows(env, w, side.session.role, sealed.1.value, luck(i, PostMessage));
    }
  }

  lemma SendJoinGood(env: Env, side: Side, w: World, luck: Luck, i: nat)
    requires Paced(w.relay, side.session)
    ensures var d := SendJoinIfReady(env, side, w, luck, i);
      && Good(side, w.relay, d, luck)
      && (d.2.Ok? && JoinReady(side.session) ==> d.0.session.joinSent)
      && (!JoinReady(side.session) ==> d == (side, w, Ok(())))
  {
    if JoinReady(side.session) && luck(i, ReadAccount) == Works && side.store.account.Some? {
      var account, master := side.store.account.value, side.session.master.value;
      var signature := Sign(account, W.IdText(account.curve25519, master));
      PostSealedGood(env, side, w, SealJoin(env, side.session, signature), luck, i);
    }
  }

  lemma RefuseGood(env: Env, side: Side, w: World, reason: string, luck: Luck, i: nat)
    requires Paced(w.relay, side.session)
    ensures Good(side, w.relay, Refuse(env, side, w, reason, luck, i), luck)
  {
    PostSealedGood(env, side, w, SealRefusal(env, side.session, reason), luck, i);
  }

  lemma SealSignedNext(env: Env, s: Session, grant: Grant)
    requires s.channel.Some? <==> s.stage == Keyed
    ensures SealsNext(s, SealSigned(env, s, grant)) && SealSigned(env, s, grant).0.stage == s.stage
  {
  }

  lemma SealDoneNext(env: Env, s: Session)
    requires s.channel.Some? <==> s.stage == Keyed
    ensures SealsNext(s, SealDone(env, s)) && SealDone(env, s).0.stage == s.stage
  {
  }

  lemma AnswerGood(env: Env, side: Side, w: World, grant: Grant, luck: Luck, i: nat)
    requires Paced(w.relay, side.session)
    ensures Good(side, w.relay, AnswerGrant(env, side, w, grant, luck, i), luck)
  {
    if luck(i, SaveList) == Works {
      var kept := side.(store := side.store.(list := Some(grant.list)));
      SealSignedNext(env, side.session, grant);
      PostSealedGood(env, kept, Note(w, Kept(Creator, grant.list)), SealSigned(env, side.session, grant), luck, i);
    }
  }

  lemma PutGood(env: Env, side: Side, w: World, grant: Grant, luck: Luck, i: nat)
    requires Paced(w.relay, side.session)
    ensures Good(side, w.relay, PutGrant(env, side, w, grant, luck, i), luck)
  {
    AnswerGood(env, side, Note(w.(grant := Some(grant)), Put(grant)), grant, luck, i);
  }

  lemma FinishCreatorGood(env: Env, side: Side, w: World, luck: Luck, i: nat)
    requires Paced(w.relay, side.session)
    ensures Good(side, w.relay, FinishCreator(env, side, w, luck, i), luck)
  {
    var device := ConfirmedDevice(side.session);
    if device.Some? {
      if !PeerIdSignatureValid(side.session) {
        RefuseGood(env, side, w, "failed", luck, i);
      } else if luck(i, ReadMaster) == Works && side.store.master.Some? && side.store.list.Some? {
        GrantToGood(env, side, w, side.store.master.value, side.store.list.value, device.value.ed25519, luck, i);
      }
    }
  }

  lemma GrantToGood(env: Env, side: Side, w: World, master: Account, list: SignedList, device: string, luck: Luck, i: nat)
    requires Paced(w.relay, side.session)
    ensures Good(side, w.relay, GrantTo(env, side, w, master, list, device, luck, i), luck)
  {
    if device in list.keys {
      RefuseGood(env, side, w, "paired", luck, i);
    } else {
      match BuildGrant(master, list, device)
      case Err(ListFull) => RefuseGood(env, side, w, "full", luck, i);
      case Err(_) =>
      case Ok(grant) => PutGood(env, side, w, grant, luck, i);
    }
  }

  lemma KeptGood(store: Store, w: World, own: string, grant: Grant, access: Access)
    ensures NoteKept(w, store, own, grant, access).relay == w.relay
    ensures OnwardStore(store, ApplyGrant(store, own, grant, access).0)
    ensures ApplyGrant(store, own, grant, access).0.slot == store.slot
  {
  }

  lemma FinishGood(relay: seq<RelayMessage>, side: Side, d: Driven, luck: Luck, i: nat)
    requires OnwardSession(side.session, d.0.session) && d.0 == side.(session := d.0.session)
    requires d.0.session.lastSeq == side.session.lastSeq && Grows(relay, d.1.relay, side.session.role)
    requires Paced(d.1.relay, d.0.session)
    ensures Good(side, relay, (Cleanup(d.0.(session := Finish(d.0.session)), luck, i), Note(d.1, Finishes(Joiner)), d.2), luck)
  {
  }

  lemma FinishKeptGood(env: Env, side: Side, w: World, luck: Luck, i: nat)
    requires Paced(w.relay, side.session)
    ensures Good(side, w.relay, FinishKept(env, side, w, luck, i), luck)
  {
    if luck(i, Provision) == Works {
      SealDoneNext(env, side.session);
      PostSealedGood(env, side, w, SealDone(env, side.session), luck, i);
      var d := PostSealed(env, side, w, SealDone(env, side.session), luck, i);
      if d.2.Ok? {
        FinishGood(w.relay, side, d, luck, i);
      }
    }
  }

  lemma FinishJoinerGood(env: Env, spare: Account, side: Side, w: World, grant: Grant, luck: Luck, i: nat)
    requires Paced(w.relay, side.session)
    ensures Good(side, w.relay, FinishJoiner(env, spare, side, w, grant, luck, i), luck)
  {
    var (store, r) := AccountOf(side.store, spare, luck, i);
    if r.Ok? {
      var own := r.value;
      var access := AccessOf(luck, i);
      var (store', applied) := ApplyGrant(store, own.ed25519, grant, access);
      var w' := NoteKept(w, store, own.ed25519, grant, access);
      KeptGood(store, w, own.ed25519, grant, access);
      if applied.Ok? {
        FinishKeptGood(env, side.(store := store'), w', luck, i);
      }
    }
  }

  lemma HandleGood(env: Env, network: string, spare: Account, side: Side, w: World, e: FlowEvent, luck: Luck, i: nat)
    requires Paced(w.relay, side.session)
    ensures Good(side, w.relay, Handle(env, network, spare, side, w, e, luck, i), luck)
  {
    match e
    case Offered => SendJoinGood(env, side, w, luck, i);
    case Joined => FinishCreatorGood(env, side, w, luck, i);
    case SignedAnswer(grant) => FinishJoinerGood(env, spare, side, w, grant, luck, i);
    case _ =>
  }

  lemma GoodTwice(side: Side, relay: seq<RelayMessage>, d: Driven, d': Driven, luck: Luck)
    requires Good(side, relay, d, luck) && d.2.Ok? && Good(d.0, d.1.relay, d', luck)
    ensures Good(side, relay, d', luck)
  {
  }

  lemma {:induction false} HandleAllGood(env: Env, network: string, spare: Account, side: Side, w: World,
                                         events: seq<FlowEvent>, luck: Luck, i: nat)
    requires Paced(w.relay, side.session)
    ensures Good(side, w.relay, HandleAll(env, network, spare, side, w, events, luck, i), luck)
    decreases |events|
  {
    if events != [] {
      var d := Handle(env, network, spare, side, w, events[0], luck, i);
      HandleGood(env, network, spare, side, w, events[0], luck, i);
      if d.2.Ok? {
        HandleAllGood(env, network, spare, d.0, d.1, events[1..], luck, i + 1);
        GoodTwice(side, w.relay, d, HandleAll(env, network, spare, d.0, d.1, events[1..], luck, i + 1), luck);
      }
    }
  }

  // ---- taking messages in ----

  /** Reading seals nothing, and only an error ends the session. */
  ghost predicate Reads(s: Session, s': Session, ok: bool) {
    && OnwardSession(s, s')
    && (ok ==>
          && (s'.Active() <==> s.Active())
          && (s'.channel.Some? <==> s'.stage == Keyed)
          && (s'.channel.Some? ==> s'.channel.value.sent == (if s.channel.Some? then s.channel.value.sent else 0))
          && (s'.stage == Open ==> s.stage == Open)
          && (s.stage == Keyed ==> s'.stage == Keyed)
          && (!s.Active() ==> s'.waiting == s.waiting))
  }

  lemma TakeOfferReads(s: Session, networks: seq<WireNetwork>)
    requires s.stage == Keyed && s.channel.Some?
    ensures var (s', r) := TakeOffer(s, networks); Reads(s, s', r.Ok?) && s'.lastSeq == s.lastSeq
  {
  }

  lemma TakeJoinReads(s: Session, joined: seq<WireJoined>)
    requires s.stage == Keyed && s.channel.Some?
    ensures var (s', r) := TakeJoin(s, joined); Reads(s, s', r.Ok?) && s'.lastSeq == s.lastSeq
  {
  }

  lemma TakeSignedReads(s: Session, signed: seq<WireSigned>)
    requires s.stage == Keyed && s.channel.Some?
    ensures var (s', r) := TakeSigned(s, signed); Reads(s, s', r.Ok?) && s'.lastSeq == s.lastSeq
  {
  }

  lemma TakePlainReads(s: Session, plain: Plain)
    requires s.stage == Keyed && s.channel.Some?
    ensures var (s', r) := TakePlain(s, plain); Reads(s, s', r.Ok?) && s'.lastSeq == s.lastSeq
  {
    match (s.role, ReadWire(plain))
    case (Joiner, Some(Offer(_, networks, _))) => TakeOfferReads(s, networks);
    case (Creator, Some(Join(_, joined, _))) => TakeJoinReads(s, joined);
    case (Joiner, Some(Signed(_, signed, _))) => TakeSignedReads(s, signed);
    case _ =>
  }

  lemma TakeSealedReads(s: Session, payload: Payload)
    requires s.stage == Keyed && s.channel.Some?
    ensures var (s', r) := TakeSealed(s, payload); Reads(s, s', r.Ok?) && s'.lastSeq == s.lastSeq
  {
    if payload.Sealed? {
      TakePlainReads(Opened(s), payload.plain);
    }
  }

  lemma TakeInReads(env: Env, s: Session, payload: Payload)
    requires s.channel.Some? <==> s.stage == Keyed
    ensures var (s', r) := TakeIn(env, s, payload); Reads(s, s', r.Ok?) && s'.lastSeq == s.lastSeq
  {
    if s.stage == Keyed {
      TakeSealedReads(s, payload);
    }
  }

  lemma AcceptOneReads(env: Env, s: Session, m: RelayMessage)
    requires s.channel.Some? <==> s.stage == Keyed
    ensures var (s', r) := AcceptOne(env, s, m);
      && Reads(s, s', r.Ok?)
      && (s'.lastSeq == s.lastSeq || s'.lastSeq == m.seqno)
      && (s'.lastSeq == s.lastSeq ==> s' == s && r == Ok(None))
  {
    if m.seqno > s.lastSeq {
      TakeInReads(env, Counted(env, s, m), m.payload);
    }
  }

  /** Without a later sequence number a batch changes nothing. */
  lemma {:induction false} AcceptSortedReads(env: Env, s: Session, sorted: seq<RelayMessage>, last: nat)
    requires (s.channel.Some? <==> s.stage == Keyed) && forall m :: m in sorted ==> m.seqno <= last
    ensures var (s', r) := AcceptSorted(env, s, sorted);
      && Reads(s, s', r.Ok?)
      && (s'.lastSeq == s.lastSeq || s'.lastSeq <= last)
      && (s'.lastSeq == s.lastSeq ==> s' == s && r == Ok([]))
    decreases |sorted|
  {
    if sorted != [] {
      AcceptOneReads(env, s, sorted[0]);
      var (s1, r1) := AcceptOne(env, s, sorted[0]);
      if r1.Ok? {
        AcceptSortedReads(env, s1, sorted[1..], last);
        assert r1 == Ok(None) ==> EventList(r1.value) + [] == [];
      }
    }
  }

  // ---- what a whole step does ----

  /** Nothing that counts as progress happened. */
  ghost predicate Still(side: Side, side': Side) {
    && side'.session.lastSeq == side.session.lastSeq
    && (side.session.Active() ==> side'.session.Active())
    && (side'.session.master.Some? ==> side.session.master.Some?)
    && (side'.session.ownConfirmed ==> side.session.ownConfirmed)
    && (side'.session.joinSent ==> side.session.joinSent)
    && (side.store.slot.Some? ==> side'.store.slot.Some?)
    && (side'.store.account.Some? ==> side.store.account.Some?)
  }

  /** A step undoes nothing, and without progress it changes nothing but the history. */
  ghost predicate Progress(side: Side, w: World, d: (Side, World), luck: Luck, last: nat) {
    && Onward(side, d.0)
    && (d.0.session.lastSeq == side.session.lastSeq || d.0.session.lastSeq <= last)
    && Grows(w.relay, d.1.relay, side.session.role)
    && Paced(d.1.relay, d.0.session)
    && (Still(side, d.0) ==> d.0 == side && d.1.relay == w.relay && d.1.grant == w.grant)
    && (SlotWorks(luck) && SlotOk(side) ==> SlotOk(d.0))
  }

  lemma NoProgress(side: Side, w: World, w': World, luck: Luck, last: nat)
    requires Paced(w.relay, side.session) && w'.relay == w.relay && w'.grant == w.grant
    ensures Progress(side, w, (side, w'), luck, last)
  {
  }

  /** An active session ends. */
  lemma EndProgress(side: Side, w: World, mid: Side, w': World, reason: EndReason, luck: Luck, i: nat, last: nat)
    requires side.session.Active() && Onward(side, mid)
    requires mid.session.lastSeq == side.session.lastSeq || mid.session.lastSeq <= last
    requires Grows(w.relay, w'.relay, side.session.role)
    ensures Progress(side, w, (Cleanup(mid.(session := End(mid.session, reason)), luck, i), w'), luck, last)
  {
  }

  /** Cancelling, expiring or closing. */
  lemma StopProgress(side: Side, w: World, reason: EndReason, luck: Luck, last: nat)
    requires Paced(w.relay, side.session)
    ensures Progress(side, w, (Cleanup(side.(session := End(side.session, reason)), luck, 0), w), luck, last)
  {
    if side.session.Active() {
      EndProgress(side, w, side, w, reason, luck, 0, last);
    } else {
      assert End(side.session, reason) == side.session;
      assert side.(session := side.session) == side;
    }
  }

  /** An active session that read something, or nothing, went through its events. */
  lemma HandledProgress(side: Side, w: World, read: Side, d: Driven, luck: Luck, last: nat)
    requires side.session.Active() && Paced(w.relay, read.session)
    requires Onward(side, read) && read.store == side.store && (SlotOk(side) ==> SlotOk(read))
    requires read.session.lastSeq == side.session.lastSeq || read.session.lastSeq <= last
    requires Good(read, w.relay, d, luck)
    requires read.session.lastSeq == side.session.lastSeq ==> d.0 == side && d.1.relay == w.relay && d.1.grant == w.grant
    ensures Progress(side, w, (AbortOnError(d, luck, 0).0, d.1), luck, last)
  {
    if d.2.Err? {
      EndProgress(side, w, d.0, d.1, Failed, luck, 0, last);
    }
  }

  lemma PumpProgress(env: Env, network: string, spare: Account, side: Side, w: World, batch: seq<RelayMessage>, luck: Luck, last: nat)
    requires Paced(w.relay, side.session) && forall m :: m in batch ==> m.seqno <= last
    ensures var d := Pump(env, network, spare, side, w, batch, luck); Progress(side, w, (d.0, d.1), luck, last)
  {
    if !side.session.Active() {
      NoProgress(side, w, w, luck, last);
    } else if luck(0, FetchMessages) != Works {
      EndProgress(side, w, side, w, Failed, luck, 0, last);
    } else {
      CatchUp.SortSorts(batch);
      AcceptSortedReads(env, side.session, SortBySeq(batch), last);
      var (s, r) := Accept(env, side.session, batch);
      var read := side.(session := s);
      if r.Err? {
        EndProgress(side, w, read, w, Failed, luck, 0, last);
      } else {
        HandleAllGood(env, network, spare, read, w, r.value, luck, 1);
        assert read.session == side.session ==> read == side;
        HandledProgress(side, w, read, HandleAll(env, network, spare, read, w, r.value, luck, 1), luck, last);
      }
    }
  }

  // ---- typing the code ----

  lemma PrepareGood(w: World, side: Side, luck: Luck)
    requires Paced(w.relay, side.session)
    ensures var p := PrepareHolder(side, luck).0;
      && p == side.(session := side.session.(master := p.session.master))
      && (p == side || (side.session.master.None? && p.session.master.Some?))
  {
    if PrepareHolder(side, luck).0.session == side.session {
      assert PrepareHolder(side, luck).0 == side;
    }
  }

  /** What the typed code does to the session. */
  lemma ConfirmMeans(env: Env, s: Session, typed: string)
    requires s.channel.Some? <==> s.stage == Keyed
    ensures var (s', r) := Confirm(env, s, typed);
      match r
      case Err(CodeIsWrong) => s.Active() && s' == End(s, WrongCode)
      case Err(_) => s' == s
      case Ok(None) => s.Active() && s' == s.(ownConfirmed := true)
      case Ok(Some(out)) =>
        && s.Active() && s.role == Creator && !s.ownConfirmed
        && SealsNext(s, (s', Ok(out))) && s'.stage == s.stage && s'.ownConfirmed
  {
  }

  lemma SentGood(env: Env, side: Side, w: World, s: Session, out: Outgoing, luck: Luck)
    requires Paced(w.relay, side.session) && SealsNext(side.session, (s, Ok(out)))
    requires side.session.role == Creator && s.stage == side.session.stage
    ensures Good(side, w.relay, AfterConfirm(env, side.(session := s), w, Some(out), luck), luck)
  {
    PostGrows(env, w, Creator, out, luck(0, PostMessage));
    var (w', r) := Post(env, w, s.role, out, luck(0, PostMessage));
    if r.Ok? {
      SendJoinGood(env, side.(session := s), w', luck, 1);
    }
  }

  /** The first right code is progress. */
  lemma ConfirmedProgress(side: Side, w: World, d: Driven, luck: Luck, last: nat)
    requires side.session.Active() && Onward(side, d.0) && d.0.session.lastSeq == side.session.lastSeq
    requires Grows(w.relay, d.1.relay, side.session.role)
    requires d.2.Ok? ==> Paced(d.1.relay, d.0.session) && (SlotWorks(luck) && SlotOk(side) ==> SlotOk(d.0))
    requires Still(side, d.0) && d.2.Ok? ==> d.0 == side && d.1.relay == w.relay && d.1.grant == w.grant
    ensures Progress(side, w, (AbortOnError(d, luck, 0).0, d.1), luck, last)
  {
    if d.2.Err? {
      EndProgress(side, w, d.0, d.1, Failed, luck, 0, last);
    }
  }

  /** The user of the joiner, or a second time the user of the holder, typed the right code. */
  lemma TypedGood(env: Env, side: Side, w: World, luck: Luck)
    requires Paced(w.relay, side.session)
    ensures var typed := side.(session := side.session.(ownConfirmed := true));
      var d := AfterConfirm(env, typed, w, None, luck);
      && Good(side, w.relay, d, luck)
      && (Still(side, d.0) && d.2.Ok? ==> d == (side, w, Ok(())))
  {
    var typed := side.(session := side.session.(ownConfirmed := true));
    SendJoinGood(env, typed, w, luck, 1);
    assert side.session.ownConfirmed ==> typed.session == side.session;
    assert typed.session == side.session ==> typed == side;
  }

  lemma ConfirmProgress(env: Env, side: Side, w: World, typed: string, luck: Luck, last: nat)
    requires Paced(w.relay, side.session)
    ensures var d := ConfirmCode(env, side, w, typed, luck); Progress(side, w, (d.0, d.1), luck, last)
  {
    var w0 := Note(w, Typed(side.session.role, typed));
    PrepareGood(w, side, luck);
    var (p, r) := PrepareHolder(side, luck);
    if r.Ok? {
      PreparedProgress(env, side, w0, p, typed, luck, last);
    }
  }

  lemma FirstTypedProgress(env: Env, side: Side, w: World, p: Side, luck: Luck, last: nat)
    requires Paced(w.relay, side.session) && p == side.(session := side.session.(master := p.session.master))
    requires p == side || (side.session.master.None? && p.session.master.Some?)
    requires side.session.Active()
    ensures var d := AbortOnError(AfterConfirm(env, p.(session := p.session.(ownConfirmed := true)), w, None, luck), luck, 0);
      Progress(side, w, (d.0, d.1), luck, last)
  {
    TypedGood(env, p, w, luck);
    ConfirmedProgress(side, w, AfterConfirm(env, p.(session := p.session.(ownConfirmed := true)), w, None, luck), luck, last);
  }

  lemma FirstSentProgress(env: Env, side: Side, w: World, p: Side, s: Session, out: Outgoing, luck: Luck, last: nat)
    requires Paced(w.relay, side.session) && p == side.(session := side.session.(master := p.session.master))
    requires p == side || (side.session.master.None? && p.session.master.Some?)
    requires side.session.Active() && side.session.role == Creator && !side.session.ownConfirmed && s.ownConfirmed
    requires SealsNext(p.session, (s, Ok(out))) && s.stage == p.session.stage
    ensures var d := AbortOnError(AfterConfirm(env, p.(session := s), w, Some(out), luck), luck, 0);
      Progress(side, w, (d.0, d.1), luck, last)
  {
    SentGood(env, p, w, s, out, luck);
    ConfirmedProgress(side, w, AfterConfirm(env, p.(session := s), w, Some(out), luck), luck, last);
  }

  lemma PreparedProgress(env: Env, side: Side, w: World, p: Side, typed: string, luck: Luck, last: nat)
    requires Paced(w.relay, side.session) && p == side.(session := side.session.(master := p.session.master))
    requires p == side || (side.session.master.None? && p.session.master.Some?)
    ensures var d := ConfirmPrepared(env, p, w, typed, luck); Progress(side, w, (d.0, d.1), luck, last)
  {
    ConfirmMeans(env, p.session, typed);
    var (s, r) := Confirm(env, p.session, typed);
    match r
    case Err(CodeIsWrong) => EndProgress(side, w, p, w, WrongCode, luck, 0, last);
    case Err(_) => assert p.(session := s) == p;
    case Ok(None) => FirstTypedProgress(env, side, w, p, luck, last);
    case Ok(Some(out)) => FirstSentProgress(env, side, w, p, s, out, luck, last);
  }

  // ---- every step of both devices ----

  /** A step fetches no sequence number above `last`. */
  predicate ServedUpTo(step: Step, last: nat) {
    step.PumpStep? ==> forall m :: m in step.batch ==> m.seqno <= last
  }

  lemma TickProgress(side: Side, w: World, now: int, luck: Luck, last: nat)
    requires Paced(w.relay, side.session)
    ensures Progress(side, w, (Tick(side, now, luck), w), luck, last)
  {
    StopProgress(side, w, Timeout, luck, last);
    NoProgress(side, w, w, luck, last);
  }

  lemma SideProgress(u: Setup, network: string, side: Side, w: World, step: Step, last: nat)
    requires Paced(w.relay, side.session) && !step.JoinStep?
    requires ServedUpTo(step, last)
    ensures Progress(side, w, SideStep(u, network, side, w, step), step.luck, last)
  {
    match step
    case PumpStep(_, batch, luck) => PumpProgress(u.env, network, u.device, side, w, batch, luck, last);
    case ConfirmStep(_, typed, luck) => ConfirmProgress(u.env, side, w, typed, luck, last);
    case CancelStep(_, luck) => StopProgress(side, w, Cancelled, luck, last);
    case TickStep(_, now, luck) => TickProgress(side, w, now, luck, last);
    case ClosedStep(_, reason, luck) => StopProgress(side, w, Closed(reason), luck, last);
  }

  /** What every run keeps besides `SystemOk`, whatever the relay serves. */
  ghost predicate BothPaced(sys: System) {
    var relay := sys.world.relay;
    && Paced(relay, sys.holder.session) && sys.holder.session.role == Creator
    && match sys.joiner
       case None => Own(relay, Joiner) == []
       case Some(s) => Paced(relay, s) && s.role == Joiner
  }

  /** The last sequence of no session is above `last`. */
  predicate SeenUpTo(sys: System, last: nat) {
    sys.holder.session.lastSeq <= last && (sys.joiner.Some? ==> sys.joiner.value.lastSeq <= last)
  }

  /** The same for a relay that serves its log only. */
  ghost predicate PacedSystem(sys: System) {
    BothPaced(sys) && SeqsOk(sys.world.relay) && SeenUpTo(sys, |sys.world.relay|)
  }

  lemma StartIsPaced(u: Setup, sys: System)
    requires StartState(u, sys)
    ensures PacedSystem(sys)
  {
  }

  lemma PacedStays(relay: seq<RelayMessage>, relay': seq<RelayMessage>, role: Role, s: Session)
    requires Grows(relay, relay', role) && s.role == Peer(role) && Paced(relay, s)
    ensures Paced(relay', s)
  {
  }

  lemma NextStaysPaced(u: Setup, sys: System, step: Step, last: nat)
    requires BothPaced(sys) && ServedUpTo(step, last)
    ensures var next := Next(u, sys, step);
      && BothPaced(next) && (SeqsOk(sys.world.relay) ==> SeqsOk(next.world.relay))
      && |sys.world.relay| <= |next.world.relay| && (SeenUpTo(sys, last) ==> SeenUpTo(next, last))
  {
    var relay := sys.world.relay;
    if step.JoinStep? {
      if sys.joiner.None? {
        JoinIsPaced(u, sys, step.now, step.luck);
      }
    } else if step.role == Creator {
      SideProgress(u, u.holderNetwork, sys.holder, sys.world, step, last);
      if sys.joiner.Some? {
        PacedStays(relay, Next(u, sys, step).world.relay, Creator, sys.joiner.value);
      }
    } else if sys.joiner.Some? {
      SideProgress(u, u.joinerNetwork, Side(sys.joiner.value, sys.joinerStore), sys.world, step, last);
      PacedStays(relay, Next(u, sys, step).world.relay, Joiner, sys.holder.session);
    }
  }

  lemma NextIsPaced(u: Setup, sys: System, step: Step)
    requires PacedSystem(sys) && Enabled(sys, step)
    ensures PacedSystem(Next(u, sys, step))
  {
    ServedIsInLog(sys, step);
    NextStaysPaced(u, sys, step, |sys.world.relay|);
  }

  lemma ServedIsInLog(sys: System, step: Step)
    requires SeqsOk(sys.world.relay) && Enabled(sys, step)
    ensures ServedUpTo(step, |sys.world.relay|)
  {
  }

  lemma JoinIsPaced(u: Setup, sys: System, now: int, luck: Luck)
    requires BothPaced(sys) && sys.joiner.None?
    ensures var next := StartJoiner(u, sys, now, luck);
      && BothPaced(next) && (SeqsOk(sys.world.relay) ==> SeqsOk(next.world.relay)) && |sys.world.relay| <= |next.world.relay|
      && next.holder == sys.holder && (next.joiner.Some? ==> next.joiner.value.lastSeq == 0)
  {
    var next := StartJoiner(u, sys, now, luck);
    if next.joiner.Some? {
      var r := JoinedWith(u, Joining(u, sys, luck), now);
      JoinOutcome(u, sys, now, luck);
      JoinedIsFirst(u, Joining(u, sys, luck), now);
      FirstPostIsPaced(u.env, sys.world, r.value.0, r.value.1, luck(0, PostMessage));
      PacedStays(sys.world.relay, Post(u.env, sys.world, Joiner, r.value.1, luck(0, PostMessage)).0.relay, Joiner,
        sys.holder.session);
    } else {
      JoinOutcome(u, sys, now, luck);
    }
  }

  /** The account that joins. */
  function Joining(u: Setup, sys: System, luck: Luck): Account {
    match AccountOf(sys.joinerStore, u.device, luck, 0).1
    case Ok(account) => account
    case Err(_) => u.device
  }

  function JoinedWith(u: Setup, account: Account, now: int): Result<(Session, Outgoing), FlowError> {
    JoinAny(u.env, PairingLink(u.rendezvousId, u.holderKey), Joiner, u.rendezvousId, u.joinerNetwork,
            u.eligible, DeviceOf(account), u.joinerKey, u.std, now)
  }

  /** The joiner is not there, or it ended at once, or it posted its hello. */
  lemma JoinOutcome(u: Setup, sys: System, now: int, luck: Luck)
    requires sys.joiner.None?
    ensures var next, r := StartJoiner(u, sys, now, luck), JoinedWith(u, Joining(u, sys, luck), now);
      && next.holder == sys.holder && (next.joiner.None? ==> next.world == sys.world)
      && (next.joiner.Some? ==>
            && r.Ok?
            && var (w, posted) := Post(u.env, sys.world, Joiner, r.value.1, luck(0, PostMessage));
               || (next.joiner == Some(End(r.value.0, Failed)) && next.world == sys.world)
               || (next.joiner == Some(if posted.Ok? then r.value.0 else End(r.value.0, Failed)) && next.world == w))
  {
  }

  lemma JoinedIsFirst(u: Setup, account: Account, now: int)
    ensures var r := JoinedWith(u, account, now);
      r.Ok? ==>
        var (s, hello) := r.value;
        && s.role == Joiner && s.stage == Keyed && s.waiting.None? && s.lastSeq == 0
        && s.channel.Some? && s.channel.value.sent == 1 && Number(hello.payload) == 0
  {
  }

  /** The joiner posts `hello`, or ends. */
  lemma FirstPostIsPaced(env: Env, w: World, s: Session, hello: Outgoing, outcome: Outcome)
    requires Own(w.relay, Joiner) == [] && s.role == Joiner && s.stage == Keyed && s.waiting.None?
    requires s.channel.Some? && s.channel.value.sent == 1 && Number(hello.payload) == 0
    ensures var (w', r) := Post(env, w, Joiner, hello, outcome);
      && Grows(w.relay, w'.relay, Joiner)
      && Paced(w'.relay, if r.Ok? then s else End(s, Failed))
  {
    PostGrows(env, w, Joiner, hello, outcome);
  }

  lemma {:induction false} RunIsPaced(u: Setup, first: System, steps: seq<Step>, last: System)
    requires PacedSystem(first) && Run(u, first, steps, last)
    ensures PacedSystem(last)
    decreases |steps|
  {
    if steps != [] {
      NextIsPaced(u, first, steps[0]);
      RunIsPaced(u, Next(u, first, steps[0]), steps[1..], last);
    }
  }

  // ---- five messages ----

  /** The messages that a device can have posted, in the order of the protocol. */
  ghost predicate Script(u: Setup, own: seq<Payload>, role: Role) {
    match role
    case Joiner =>
      && |own| <= 3
      && (|own| > 0 ==> own[0] == HelloPayload(u))
      && (|own| > 1 ==> own[1] == Sealed(Cid(u), Joiner, 1, Json(JoinMsg(u))))
      && (|own| > 2 ==> own[2] == Sealed(Cid(u), Joiner, 2, Json(DoneMsg(u))))
    case Creator =>
      && |own| <= 2
      && (|own| > 0 ==> own[0] == Sealed(Cid(u), Creator, 0, Json(OfferMsg(u))))
      && (|own| > 1 ==> own[1].Sealed? && own[1].n == 1 && MessageOf(own[1]).Signed?)
  }

  lemma PostedPayload(u: Setup, w: World, role: Role, i: nat)
    requires WorldOk(u, w) && Numbered(Own(w.relay, role)) && i < |Own(w.relay, role)|
    ensures var p := Own(w.relay, role)[i];
      match role
      case Joiner =>
        i < 3 && p == (if i == 0 then HelloPayload(u)
                       else Sealed(Cid(u), Joiner, i, Json(if i == 1 then JoinMsg(u) else DoneMsg(u))))
      case Creator =>
        i < 2 && p.Sealed? && p.n == i && if i == 0 then p == Sealed(Cid(u), Creator, 0, Json(OfferMsg(u))) else MessageOf(p).Signed?
  {
    var p := Own(w.relay, role)[i];
    assert Number(p) == i;
    OwnIsPosted(w.relay, role, p);
    var m :| m in w.relay && m.from == role && m.payload == p;
    assert MessageOk(u, w, m);
  }

  lemma OwnFollowsScript(u: Setup, w: World, role: Role)
    requires WorldOk(u, w) && Numbered(Own(w.relay, role))
    ensures Script(u, Own(w.relay, role), role)
  {
    var own := Own(w.relay, role);
    if |own| > 0 {
      PostedPayload(u, w, role, 0);
      PostedPayload(u, w, role, |own| - 1);
    }
    if |own| > 1 {
      PostedPayload(u, w, role, 1);
    }
  }

  /**
   * In every run, with every call failing or not, the relay never holds more than five messages: `hello`,
   * `join` and `done` of the joiner and the offer and one answer of the holder, each at most once and each
   * device's in this order.
   */
  lemma FiveMessages(u: Setup, sys: System)
    requires Reachable(u, sys)
    ensures |sys.world.relay| <= 5
    ensures Script(u, Own(sys.world.relay, Creator), Creator) && Script(u, Own(sys.world.relay, Joiner), Joiner)
  {
    A.ReachableOk(u, sys);
    var first, steps :| StartState(u, first) && Run(u, first, steps, sys);
    StartIsPaced(u, first);
    RunIsPaced(u, first, steps, sys);
    SystemHasFive(u, sys);
  }

  lemma SystemHasFive(u: Setup, sys: System)
    requires A.SystemOk(u, sys) && BothPaced(sys)
    ensures |sys.world.relay| <= 5
    ensures Script(u, Own(sys.world.relay, Creator), Creator) && Script(u, Own(sys.world.relay, Joiner), Joiner)
  {
    OwnFollowsScript(u, sys.world, Creator);
    OwnFollowsScript(u, sys.world, Joiner);
    OwnSplits(sys.world.relay);
  }

  // ---- the measure ----

  function Unit(b: bool): nat {
    if b then 1 else 0
  }

  /** How much progress one device can still make. */
  function Rank(side: Side): nat {
    var s := side.session;
    (if s.lastSeq <= 5 then 5 - s.lastSeq else 0) + Unit(s.Active()) + Unit(s.master.None?) + Unit(!s.ownConfirmed)
      + Unit(!s.joinSent) + Unit(side.store.slot.Some?) + Unit(side.store.account.None?)
  }

  function Measure(sys: System): nat {
    Rank(sys.holder) +
    match sys.joiner
    case None => 12 + Unit(sys.joinerStore.account.None?)
    case Some(s) => Rank(Side(s, sys.joinerStore))
  }

  /** What a step leaves as it was, apart from the history. */
  predicate SameState(a: System, b: System) {
    a.holder == b.holder && a.joiner == b.joiner && a.joinerStore == b.joinerStore
    && a.world.relay == b.world.relay && a.world.grant == b.world.grant
  }

  lemma ProgressLowersRank(side: Side, w: World, d: (Side, World), luck: Luck, last: nat)
    requires Progress(side, w, d, luck, last) && last <= 5 && side.session.lastSeq <= last
    ensures Rank(d.0) <= Rank(side)
    ensures Rank(d.0) == Rank(side) ==> d.0 == side && d.1.relay == w.relay && d.1.grant == w.grant
  {
    if Rank(d.0) == Rank(side) {
      assert Still(side, d.0);
    }
  }

  lemma StepLowersRank(u: Setup, network: string, side: Side, w: World, step: Step, last: nat)
    requires Paced(w.relay, side.session) && !step.JoinStep? && ServedUpTo(step, last)
    requires last <= 5 && side.session.lastSeq <= last
    ensures var d := SideStep(u, network, side, w, step);
      Rank(d.0) < Rank(side) || (d.0 == side && d.1.relay == w.relay && d.1.grant == w.grant)
  {
    SideProgress(u, network, side, w, step, last);
    ProgressLowersRank(side, w, SideStep(u, network, side, w, step), step.luck, last);
  }

  lemma RankIsBelow(side: Side)
    ensures Rank(side) <= 11 && (side.store.account.Some? ==> Rank(side) <= 10)
  {
  }

  /** A joiner comes with its account; without one only the account can be new. */
  lemma JoinArrives(u: Setup, sys: System, now: int, luck: Luck)
    requires sys.joiner.None?
    ensures var next := StartJoiner(u, sys, now, luck);
      && next.holder == sys.holder
      && (next.joiner.Some? ==> next.joinerStore.account.Some?)
      && (next.joiner.None? ==>
            && next.world == sys.world
            && (next.joinerStore == sys.joinerStore || (sys.joinerStore.account.None? && next.joinerStore.account.Some?)))
  {
  }

  lemma JoinLowersMeasure(u: Setup, sys: System, now: int, luck: Luck)
    requires sys.joiner.None?
    ensures var next := StartJoiner(u, sys, now, luck);
      SameState(sys, next) || Measure(next) < Measure(sys)
  {
    var next := StartJoiner(u, sys, now, luck);
    JoinArrives(u, sys, now, luck);
    if next.joiner.Some? {
      RankIsBelow(Side(next.joiner.value, next.joinerStore));
    }
  }

  lemma HolderLowersMeasure(u: Setup, sys: System, step: Step)
    requires A.SystemOk(u, sys) && PacedSystem(sys) && Enabled(sys, step) && !step.JoinStep? && step.role == Creator
    ensures SameState(sys, Next(u, sys, step)) || Measure(Next(u, sys, step)) < Measure(sys)
  {
    SystemHasFive(u, sys);
    ServedIsInLog(sys, step);
    StepLowersRank(u, u.holderNetwork, sys.holder, sys.world, step, |sys.world.relay|);
  }

  lemma JoinerLowersMeasure(u: Setup, sys: System, step: Step)
    requires A.SystemOk(u, sys) && PacedSystem(sys) && Enabled(sys, step) && !step.JoinStep? && step.role == Joiner
    requires sys.joiner.Some?
    ensures SameState(sys, Next(u, sys, step)) || Measure(Next(u, sys, step)) < Measure(sys)
  {
    SystemHasFive(u, sys);
    ServedIsInLog(sys, step);
    StepLowersRank(u, u.joinerNetwork, Side(sys.joiner.value, sys.joinerStore), sys.world, step, |sys.world.relay|);
  }

  /** A step that changes anything but the history lowers the measure. */
  lemma StepLowersMeasure(u: Setup, sys: System, step: Step)
    requires A.SystemOk(u, sys) && PacedSystem(sys) && Enabled(sys, step)
    ensures SameState(sys, Next(u, sys, step)) || Measure(Next(u, sys, step)) < Measure(sys)
  {
    if step.JoinStep? {
      if sys.joiner.None? {
        JoinLowersMeasure(u, sys, step.now, step.luck);
      }
    } else if step.role == Creator {
      HolderLowersMeasure(u, sys, step);
    } else if sys.joiner.Some? {
      JoinerLowersMeasure(u, sys, step);
    }
  }

  /** The steps of a run that change anything but the history. */
  function Changes(u: Setup, first: System, steps: seq<Step>): nat
    decreases |steps|
  {
    if steps == [] then 0
    else
      var next := Next(u, first, steps[0]);
      (if SameState(first, next) then 0 else 1) + Changes(u, next, steps[1..])
  }

  lemma SameMeasure(a: System, b: System)
    requires SameState(a, b)
    ensures Measure(a) == Measure(b)
  {
  }

  lemma {:induction false} ChangesBelowMeasure(u: Setup, first: System, steps: seq<Step>, last: System)
    requires A.SystemOk(u, first) && PacedSystem(first) && Run(u, first, steps, last)
    ensures Changes(u, first, steps) + Measure(last) <= Measure(first)
    decreases |steps|
  {
    if steps != [] {
      var next := Next(u, first, steps[0]);
      A.NextOk(u, first, steps[0]);
      NextIsPaced(u, first, steps[0]);
      StepLowersMeasure(u, first, steps[0]);
      ChangesBelowMeasure(u, next, steps[1..], last);
      if SameState(first, next) {
        SameMeasure(first, next);
      }
    }
  }

  /**
   * Every pairing ends. However long a run is, whatever fails and whatever the relay serves: at most 24 of
   * its steps change a session, a store, the relay or the list on the server.
   */
  lemma FewChanges(u: Setup, first: System, steps: seq<Step>, last: System)
    requires StartState(u, first) && Run(u, first, steps, last)
    ensures Changes(u, first, steps) <= 24
  {
    A.InitialOk(u, first);
    StartIsPaced(u, first);
    ChangesBelowMeasure(u, first, steps, last);
  }

  // ---- the pairing slot ----

  /** The storage works in every step of a run. */
  ghost predicate SlotsWork(steps: seq<Step>) {
    forall i :: 0 <= i < |steps| ==> SlotWorks(steps[i].luck)
  }

  /** The slot of each store is full exactly while its session is active. */
  ghost predicate SlotsOk(sys: System) {
    && SlotOk(sys.holder)
    && match sys.joiner
       case None => sys.joinerStore.slot.None?
       case Some(s) => SlotOk(Side(s, sys.joinerStore))
  }

  lemma JoinKeepsSlot(u: Setup, sys: System, now: int, luck: Luck)
    requires SlotsOk(sys) && sys.joiner.None? && SlotWorks(luck)
    ensures SlotsOk(StartJoiner(u, sys, now, luck))
  {
    assert luck(0, SaveSlot) == Works && luck(1, ClearSlot) == Works;
  }

  lemma NextKeepsSlots(u: Setup, sys: System, step: Step, last: nat)
    requires BothPaced(sys) && SlotsOk(sys) && ServedUpTo(step, last) && SlotWorks(step.luck)
    ensures SlotsOk(Next(u, sys, step))
  {
    if step.JoinStep? {
      if sys.joiner.None? {
        JoinKeepsSlot(u, sys, step.now, step.luck);
      }
    } else if step.role == Creator {
      SideProgress(u, u.holderNetwork, sys.holder, sys.world, step, last);
    } else if sys.joiner.Some? {
      SideProgress(u, u.joinerNetwork, Side(sys.joiner.value, sys.joinerStore), sys.world, step, last);
    }
  }

  lemma {:induction false} RunKeepsSlots(u: Setup, first: System, steps: seq<Step>, last: System)
    requires PacedSystem(first) && SlotsOk(first) && Run(u, first, steps, last) && SlotsWork(steps)
    ensures SlotsOk(last)
    decreases |steps|
  {
    if steps != [] {
      ServedIsInLog(first, steps[0]);
      NextIsPaced(u, first, steps[0]);
      NextKeepsSlots(u, first, steps[0], |first.world.relay|);
      RunKeepsSlots(u, Next(u, first, steps[0]), steps[1..], last);
    }
  }

  /** With working storage, in every run: between driver calls a slot is full exactly while its session is active. */
  lemma SlotIffActive(u: Setup, first: System, steps: seq<Step>, last: System)
    requires StartState(u, first) && Run(u, first, steps, last) && SlotsWork(steps)
    ensures SlotsOk(last)
  {
    StartIsPaced(u, first);
    RunKeepsSlots(u, first, steps, last);
  }
}
