/** What the holder keeps in every run: its session, its store and what it does are in step. */
module PairingHolder {
  import opened Base
  import opened Devices
  import opened Grants
  import opened PairingTypes
  import opened PairingSpec
  import opened PairingDriver
  import opened PairingHistory
  import CatchUp = PairingCatchUp

  /** The ends of the channel count what was sealed and opened; `pending` joins are read and not answered. */
  ghost predicate HolderChannel(u: Setup, s: Session, pending: nat) {
    && (s.stage == Open ==>
          s.waiting == Some(u.holderKey) && s.channel.None? && s.code.None? && !s.offerSent && s.peerDevice.None?)
    && (s.stage == Keyed ==>
          && s.channel.Some? && s.channel.value.id == Cid(u) && s.channel.value.side == Creator
          && s.code == Some(Code(u))
          && s.channel.value.received >= 1
          && (s.peerDevice.None? <==> s.channel.value.received == 1)
          && s.channel.value.sent == (if !s.offerSent then 0 else if s.peerDevice.None? then 1 else 2 - pending))
    && (!s.Active() ==> s.channel.None? && s.waiting.None?)
  }

  ghost predicate HolderFlags(u: Setup, w: World, s: Session) {
    && s.role == Creator && s.network == u.holderNetwork
    && (s.code.Some? ==> s.code == Some(Code(u)))
    && (s.master.Some? ==> u.master.Some? && s.master.value == MasterKey(u))
    && (s.offerSent <==> s.ownConfirmed)
    && (s.offerSent ==> s.master.Some? && TypedRight(u, w.history, Creator))
    && (s.peerDevice.Some? ==>
          && s.offerSent && s.peerDevice == Some(DeviceOf(u.device)) && s.peerIdSig == Some(IdSignature(u))
          && Posted(Joiner, JoinMsg(u)) in w.history)
    && (s.stage == Finished ==> Posted(Joiner, DoneMsg(u)) in w.history)
  }

  ghost predicate HolderSession(u: Setup, w: World, s: Session, pending: nat) {
    && HolderChannel(u, s, pending)
    && HolderFlags(u, w, s)
    && pending <= (if s.peerDevice.Some? then 1 else 0)
    && (w.grant.Some? ==> s.peerDevice.Some? && pending == 0)
  }

  ghost predicate HolderStore(u: Setup, w: World, store: Store) {
    && store.master == u.master
    && (w.grant.None? ==> store.list == u.list)
    && (forall list :: Kept(Creator, list) in w.history ==> store.list == Some(list))
  }

  /** What the driver may rely on while an event waits. */
  ghost predicate EventOk(u: Setup, w: World, e: FlowEvent) {
    match e
    case SignedAnswer(grant) => w.grant == Some(grant) && Posted(Creator, AnswerMsg(u, grant)) in w.history
    case Paired => Posted(Joiner, DoneMsg(u)) in w.history
    case _ => true
  }

  function Joins(events: seq<FlowEvent>): nat {
    if events == [] then 0 else (if events[0].Joined? then 1 else 0) + Joins(events[1..])
  }

  lemma HolderEnds(u: Setup, w: World, s: Session, reason: EndReason)
    requires HolderFlags(u, w, s) && (w.grant.Some? ==> s.peerDevice.Some?)
    ensures HolderSession(u, w, End(s, reason), 0)
  {
  }

  // ---- taking a message in ----

  lemma HolderTakesJoin(u: Setup, w: World, s: Session)
    requires HolderSession(u, w, s, 0) && s.stage == Keyed && s.peerDevice.None?
    requires Posted(Joiner, JoinMsg(u)) in w.history
    ensures var t := TakePlain(Opened(s), Json(JoinMsg(u)));
      match t.1
      case Err(_) => HolderSession(u, w, t.0, 0)
      case Ok(e) => e == Some(Joined) && HolderSession(u, w, t.0, 1)
  {
    var read := Opened(s);
    HolderEnds(u, w, read, BadMessage);
    HolderEnds(u, w, read, Failed);
    assert JoinMsg(u).joined[0].network == u.holderNetwork;
  }

  lemma HolderTakesDone(u: Setup, w: World, s: Session, pending: nat)
    requires HolderSession(u, w, s, pending) && s.stage == Keyed && s.peerDevice.Some?
    requires Posted(Joiner, DoneMsg(u)) in w.history
    ensures var t := TakePlain(Opened(s), Json(DoneMsg(u)));
      match t.1
      case Err(_) => HolderSession(u, w, t.0, 0)
      case Ok(e) => e == Some(Paired) && HolderSession(u, w, t.0, pending)
  {
    var read := Opened(s);
    HolderEnds(u, w, read, BadMessage);
    HolderEnds(u, w, read, Failed);
  }

  ghost predicate HolderTaken(u: Setup, w: World, taken: Taken, pending: nat) {
    match taken.1
    case Err(_) => HolderSession(u, w, taken.0, 0)
    case Ok(None) => HolderSession(u, w, taken.0, pending)
    case Ok(Some(e)) => EventOk(u, w, e) && !e.SignedAnswer? && HolderSession(u, w, taken.0, pending + (if e.Joined? then 1 else 0))
  }

  lemma HolderTakesHello(u: Setup, w: World, s: Session, m: RelayMessage)
    requires HolderSession(u, w, s, 0) && s.stage == Open && FromJoiner(u, m.payload)
    ensures HolderTaken(u, w, TakeHello(u.env, s, m.payload), 0)
  {
    HolderEnds(u, w, s.(waiting := None), BadChannel);
  }

  lemma HolderTakesSealed(u: Setup, w: World, s: Session, m: RelayMessage, pending: nat)
    requires HolderSession(u, w, s, pending) && s.stage == Keyed && Readable(u, w, m.payload)
    ensures HolderTaken(u, w, TakeSealed(s, m.payload), pending)
  {
    if !m.payload.Sealed? && !m.payload.std {
      HolderEnds(u, w, s, BadMessage);
    } else if !Opens(s.channel.value, m.payload) {
      HolderEnds(u, w, s, BadChannel);
    } else if m.payload.n == 1 {
      HolderTakesJoin(u, w, s);
    } else {
      HolderTakesDone(u, w, s, pending);
    }
  }

  lemma HolderAcceptsOne(u: Setup, w: World, s: Session, m: RelayMessage, pending: nat)
    requires HolderSession(u, w, s, pending) && Readable(u, w, m.payload)
    requires s.stage == Open ==> FromJoiner(u, m.payload)
    ensures HolderTaken(u, w, AcceptOne(u.env, s, m), pending)
  {
    var seen := s.(lastSeq := m.seqno);
    HolderCounts(u, w, s, m.seqno, s.relayCount, s.relayBytes, pending);
    assert seen == s.(lastSeq := m.seqno, relayCount := s.relayCount, relayBytes := s.relayBytes);
    HolderEnds(u, w, seen, BadMessage);
    if m.seqno > s.lastSeq && m.from == Joiner {
      var counted := Counted(u.env, s, m);
      HolderCounts(u, w, s, m.seqno, counted.relayCount, counted.relayBytes, pending);
      HolderTakesIn(u, w, counted, m, pending);
    }
  }

  /** Counting a message leaves the session in order. */
  lemma HolderCounts(u: Setup, w: World, s: Session, lastSeq: nat, count: nat, bytes: nat, pending: nat)
    requires HolderSession(u, w, s, pending)
    ensures HolderSession(u, w, s.(lastSeq := lastSeq, relayCount := count, relayBytes := bytes), pending)
  {
  }

  lemma HolderTakesIn(u: Setup, w: World, s: Session, m: RelayMessage, pending: nat)
    requires HolderSession(u, w, s, pending) && Readable(u, w, m.payload)
    requires s.stage == Open ==> FromJoiner(u, m.payload)
    ensures HolderTaken(u, w, TakeIn(u.env, s, m.payload), pending)
  {
    match s.stage
    case Open => HolderTakesHello(u, w, s, m);
    case Keyed => HolderTakesSealed(u, w, s, m, pending);
    case _ =>
  }

  /** A session that has left the open stage never comes back to it. */
  lemma NeverOpensAgain(u: Setup, s: Session, m: RelayMessage)
    requires s.stage != Open
    ensures AcceptOne(u.env, s, m).0.stage != Open
  {
    var counted := Counted(u.env, s, m);
    if s.stage == Keyed {
      TakeSealedStage(counted, m.payload);
    }
  }

  lemma TakePlainStage(s: Session, plain: Plain)
    requires s.stage != Open
    ensures TakePlain(s, plain).0.stage != Open
  {
    match (s.role, ReadWire(plain))
    case (Joiner, Some(Offer(_, networks, _))) => TakeOfferStage(s, networks);
    case (Creator, Some(Join(_, joined, _))) => TakeJoinStage(s, joined);
    case _ =>
  }

  lemma TakeOfferStage(s: Session, networks: seq<WireNetwork>)
    requires s.stage != Open
    ensures TakeOffer(s, networks).0.stage != Open
  {
  }

  lemma TakeJoinStage(s: Session, joined: seq<WireJoined>)
    requires s.stage != Open
    ensures TakeJoin(s, joined).0.stage != Open
  {
  }

  lemma TakeSealedStage(s: Session, payload: Payload)
    requires s.stage != Open
    ensures TakeSealed(s, payload).0.stage != Open
  {
    if s.channel.Some? && payload.Sealed? {
      TakePlainStage(Opened(s), payload.plain);
    }
  }

  ghost predicate HolderEvents(u: Setup, w: World, events: seq<FlowEvent>) {
    forall e :: e in events ==> EventOk(u, w, e) && !e.SignedAnswer?
  }

  /** What reading a batch leads to. */
  ghost predicate HolderRead(u: Setup, w: World, accepted: Accepted, pending: nat) {
    match accepted.1
    case Err(_) => HolderSession(u, w, accepted.0, 0)
    case Ok(events) => HolderSession(u, w, accepted.0, pending + Joins(events)) && HolderEvents(u, w, events)
  }

  lemma EventBefore(u: Setup, w: World, e: FlowEvent, rest: Accepted, pending: nat)
    requires EventOk(u, w, e) && !e.SignedAnswer?
    requires HolderRead(u, w, rest, pending + (if e.Joined? then 1 else 0))
    ensures HolderRead(u, w, Before([e], rest), pending)
  {
    match rest.1
    case Ok(more) => assert ([e] + more)[1..] == more;
    case Err(_) =>
  }

  lemma {:induction false} HolderAccepts(u: Setup, w: World, s: Session, sorted: seq<RelayMessage>, pending: nat)
    requires HolderSession(u, w, s, pending)
    requires forall m :: m in sorted ==> Readable(u, w, m.payload) && (s.stage == Open ==> FromJoiner(u, m.payload))
    ensures HolderRead(u, w, AcceptSorted(u.env, s, sorted), pending)
    decreases |sorted|
  {
    if sorted != [] {
      HolderAcceptsOne(u, w, s, sorted[0], pending);
      if s.stage != Open {
        NeverOpensAgain(u, s, sorted[0]);
      }
      match AcceptOne(u.env, s, sorted[0])
      case (s', Err(_)) =>
      case (s', Ok(None)) =>
        HolderAccepts(u, w, s', sorted[1..], pending);
        BeforeNothing(AcceptSorted(u.env, s', sorted[1..]));
      case (s', Ok(Some(e))) =>
        HolderAccepts(u, w, s', sorted[1..], pending + (if e.Joined? then 1 else 0));
        EventBefore(u, w, e, AcceptSorted(u.env, s', sorted[1..]), pending);
    }
  }

  // ---- the driver of the holder ----

  /** A driver step of the holder leaves everything in order; after an error the session is about to end. */
  ghost predicate HolderDriven(u: Setup, w: World, d: Driven, pending: nat) {
    && WorldOk(u, d.1) && Extends(w, d.1, Creator) && HolderStore(u, d.1, d.0.store)
    && HolderSession(u, d.1, if d.2.Ok? then d.0.session else End(d.0.session, Failed), if d.2.Ok? then pending else 0)
  }

  lemma HolderSessionStays(u: Setup, w: World, w': World, role: Role, s: Session, pending: nat)
    requires HolderSession(u, w, s, pending) && Extends(w, w', role) && w'.grant == w.grant
    ensures HolderSession(u, w', s, pending)
  {
    if s.offerSent {
      TypedStays(u, w, w', role, Creator);
    }
    if s.peerDevice.Some? {
      ExtendsMember(w, w', role, Posted(Joiner, JoinMsg(u)));
    }
    if s.stage == Finished {
      ExtendsMember(w, w', role, Posted(Joiner, DoneMsg(u)));
    }
  }

  /** Without a new list of the holder its store stays in order. */
  lemma HolderStoreStays(u: Setup, w: World, w': World, store: Store)
    requires HolderStore(u, w, store) && w'.grant == w.grant
    requires forall list :: Kept(Creator, list) in w'.history ==> Kept(Creator, list) in w.history
    ensures HolderStore(u, w', store)
  {
  }

  lemma KeptNeedsPut(u: Setup, w: World, list: SignedList)
    requires WorldOk(u, w) && Kept(Creator, list) in w.history
    ensures w.grant.Some? && w.grant.value.list == list
  {
    var i :| 0 <= i < |w.history| && w.history[i] == Kept(Creator, list);
    assert Caused(u, w.history[..i], w.history[i]);
    var grant: Grant :| list == grant.list && Put(grant) in w.history[..i];
    assert Put(grant) in w.history;
  }

  lemma HolderRefuses(u: Setup, w: World, side: Side, reason: string, luck: Luck, i: nat)
    requires WorldOk(u, w) && HolderSession(u, w, side.session, 1) && HolderStore(u, w, side.store)
    requires side.session.stage == Keyed
    ensures HolderDriven(u, w, Refuse(u.env, side, w, reason, luck, i), 0)
  {
    var s := side.session;
    var m := Signed(WIRE_VERSION, [], [WireReason(s.network, reason)]);
    var d := Refuse(u.env, side, w, reason, luck, i);
    var sealed := SealRefusal(u.env, s, reason);
    HolderEnds(u, w, sealed.0, Failed);
    assert End(End(sealed.0, Failed), Failed) == End(sealed.0, Failed);
    if sealed.1.Ok? {
      var out := sealed.1.value;
      assert MessageOf(out.payload) == m;
      PostKeeps(u, w, Creator, out, luck(i, PostMessage));
      HolderSessionStays(u, w, d.1, Creator, End(sealed.0, Failed), 0);
      assert sealed.0 == End(sealed.0, Failed);
      NoKeptInPost(u, w, Creator, out, luck(i, PostMessage));
      HolderStoreStays(u, w, d.1, side.store);
    }
  }

  lemma NoKeptInPost(u: Setup, w: World, role: Role, out: Outgoing, outcome: Outcome)
    ensures forall e :: e in Post(u.env, w, role, out, outcome).0.history && e !in w.history ==> e.Posted?
  {
  }

  lemma HolderFlagsStay(u: Setup, w: World, w': World, s: Session)
    requires HolderFlags(u, w, s) && Extends(w, w', Creator)
    ensures HolderFlags(u, w', s)
  {
    if s.offerSent {
      TypedStays(u, w, w', Creator, Creator);
    }
  }

  function PutWorld(w: World, grant: Grant): World {
    Note(w.(grant := Some(grant)), Put(grant))
  }

  /** The server takes the list, which no store keeps yet. */
  lemma HolderPuts(u: Setup, w: World, s: Session, grant: Grant)
    requires WorldOk(u, w) && HolderSession(u, w, s, 1) && HolderGrant(u, grant)
    ensures var put := PutWorld(w, grant);
      && WorldOk(u, put) && Extends(w, put, Creator) && HolderFlags(u, put, s)
      && (forall list :: Kept(Creator, list) !in put.history)
  {
    var put := PutWorld(w, grant);
    PutKeeps(u, w, grant);
    HolderFlagsStay(u, w, put, s);
    forall list ensures Kept(Creator, list) !in put.history {
      if Kept(Creator, list) in w.history {
        KeptNeedsPut(u, w, list);
      }
    }
  }

  lemma HolderPublishes(u: Setup, w: World, side: Side, grant: Grant, luck: Luck, i: nat)
    requires WorldOk(u, w) && HolderSession(u, w, side.session, 1) && HolderStore(u, w, side.store)
    requires side.session.stage == Keyed && HolderGrant(u, grant)
    ensures HolderDriven(u, w, PutGrant(u.env, side, w, grant, luck, i), 0)
  {
    var s := side.session;
    if luck(i, PutList) == Fails {
      HolderEnds(u, w, s, Failed);
    } else {
      var put := PutWorld(w, grant);
      HolderPuts(u, w, s, grant);
      HolderEnds(u, put, s, Failed);
      if luck(i, PutList) == Works {
        HolderAnswers(u, put, side, grant, luck, i);
        ExtendsTwice(w, put, AnswerGrant(u.env, side, put, grant, luck, i).1, Creator);
      }
    }
  }

  /** The list of the grant is kept. */
  lemma HolderKeeps(u: Setup, put: World, store: Store, grant: Grant)
    requires WorldOk(u, put) && put.grant == Some(grant) && Put(grant) in put.history
    requires store.master == u.master && store.list == Some(grant.list)
    requires forall list :: Kept(Creator, list) !in put.history
    ensures var kept := Note(put, Kept(Creator, grant.list));
      && WorldOk(u, kept) && Extends(put, kept, Creator) && HolderStore(u, kept, store)
      && Put(grant) in kept.history && Kept(Creator, grant.list) in kept.history
  {
    NoteKeeps(u, put, Kept(Creator, grant.list));
    var kept := Note(put, Kept(Creator, grant.list));
    assert kept.history[|put.history|] == Kept(Creator, grant.list);
    forall list | Kept(Creator, list) in kept.history ensures list == grant.list {
      assert Kept(Creator, list) !in put.history;
    }
  }

  lemma HolderSealsAnswer(u: Setup, w: World, s: Session, grant: Grant)
    requires HolderChannel(u, s, 1) && HolderFlags(u, w, s) && s.stage == Keyed && s.peerDevice.Some?
    ensures var (s', r) := SealSigned(u.env, s, grant);
      && HolderFlags(u, w, s')
      && (r.Ok? ==> r.value.payload == Sealed(Cid(u), Creator, 1, Json(AnswerMsg(u, grant))) && HolderSession(u, w, s', 0))
  {
  }

  /** After the put: the list is kept, and the answer sealed and posted. */
  lemma HolderAnswers(u: Setup, put: World, side: Side, grant: Grant, luck: Luck, i: nat)
    requires WorldOk(u, put) && put.grant == Some(grant) && Put(grant) in put.history
    requires HolderChannel(u, side.session, 1) && HolderFlags(u, put, side.session)
    requires side.session.stage == Keyed && side.session.peerDevice.Some? && side.store.master == u.master
    requires forall list :: Kept(Creator, list) !in put.history
    ensures HolderDriven(u, put, AnswerGrant(u.env, side, put, grant, luck, i), 0)
  {
    var s := side.session;
    HolderEnds(u, put, s, Failed);
    if luck(i, SaveList) == Works {
      var stored := side.(store := side.store.(list := Some(grant.list)));
      HolderAnswersKept(u, put, stored, grant, luck, i);
    }
  }

  lemma HolderAnswersKept(u: Setup, put: World, side: Side, grant: Grant, luck: Luck, i: nat)
    requires WorldOk(u, put) && put.grant == Some(grant) && Put(grant) in put.history
    requires HolderChannel(u, side.session, 1) && HolderFlags(u, put, side.session)
    requires side.session.stage == Keyed && side.session.peerDevice.Some?
    requires side.store.master == u.master && side.store.list == Some(grant.list)
    requires forall list :: Kept(Creator, list) !in put.history
    ensures HolderDriven(u, put,
      PostSealed(u.env, side, Note(put, Kept(Creator, grant.list)), SealSigned(u.env, side.session, grant), luck, i), 0)
  {
    var s := side.session;
    var kept := Note(put, Kept(Creator, grant.list));
    HolderKeeps(u, put, side.store, grant);
    HolderFlagsStay(u, put, kept, s);
    HolderSealsAnswer(u, kept, s, grant);
    var sealed := SealSigned(u.env, s, grant);
    HolderEnds(u, kept, sealed.0, Failed);
    if sealed.1.Ok? {
      HolderPosts(u, kept, side, sealed, luck, i, 0);
      ExtendsTwice(put, kept, PostSealed(u.env, side, kept, sealed, luck, i).1, Creator);
    }
  }

  /** A sealed message that may enter the relay is posted. */
  lemma HolderPosts(u: Setup, w: World, side: Side, sealed: (Session, Result<Outgoing, FlowError>), luck: Luck, i: nat, pending: nat)
    requires WorldOk(u, w) && HolderStore(u, w, side.store) && side.session.role == Creator
    requires sealed.1.Ok? && HolderSession(u, w, sealed.0, pending) && HolderSession(u, w, End(sealed.0, Failed), 0)
    requires Caused(u, w.history, Posted(Creator, MessageOf(sealed.1.value.payload)))
    requires Shape(u, w, RelayMessage(|w.relay| + 1, Creator, sealed.1.value.payload))
    ensures HolderDriven(u, w, PostSealed(u.env, side, w, sealed, luck, i), pending)
  {
    var d := PostSealed(u.env, side, w, sealed, luck, i);
    var out := sealed.1.value;
    PostKeeps(u, w, Creator, out, luck(i, PostMessage));
    NoKeptInPost(u, w, Creator, out, luck(i, PostMessage));
    HolderStoreStays(u, w, d.1, side.store);
    HolderSessionStays(u, w, d.1, Creator, sealed.0, pending);
    HolderSessionStays(u, w, d.1, Creator, End(sealed.0, Failed), 0);
  }

  lemma HolderGrantsTo(u: Setup, w: World, side: Side, master: Account, list: SignedList, luck: Luck, i: nat)
    requires WorldOk(u, w) && HolderSession(u, w, side.session, 1) && HolderStore(u, w, side.store)
    requires side.session.stage == Keyed && u.master == Some(master) && u.list == Some(list)
    ensures HolderDriven(u, w, GrantTo(u.env, side, w, master, list, u.device.ed25519, luck, i), 0)
  {
    HolderEnds(u, w, side.session, Failed);
    if u.device.ed25519 in list.keys {
      HolderRefuses(u, w, side, "paired", luck, i);
    } else {
      match BuildGrant(master, list, u.device.ed25519)
      case Err(ListFull) => HolderRefuses(u, w, side, "full", luck, i);
      case Err(_) =>
      case Ok(grant) => HolderPublishes(u, w, side, grant, luck, i);
    }
  }

  lemma HolderFinishes(u: Setup, w: World, side: Side, luck: Luck, i: nat)
    requires WorldOk(u, w) && HolderSession(u, w, side.session, 1) && HolderStore(u, w, side.store)
    ensures HolderDriven(u, w, FinishCreator(u.env, side, w, luck, i), 0)
  {
    var s := side.session;
    HolderEnds(u, w, s, Failed);
    if ConfirmedDevice(s).Some? {
      if !PeerIdSignatureValid(s) {
        HolderRefuses(u, w, side, "failed", luck, i);
      } else if luck(i, ReadMaster) == Works && side.store.master.Some? && side.store.list.Some? {
        HolderGrantsTo(u, w, side, side.store.master.value, side.store.list.value, luck, i);
      }
    }
  }

  lemma HolderHandles(u: Setup, w: World, side: Side, e: FlowEvent, luck: Luck, i: nat, pending: nat)
    requires WorldOk(u, w) && HolderSession(u, w, side.session, pending) && HolderStore(u, w, side.store)
    requires EventOk(u, w, e) && !e.SignedAnswer? && (e.Joined? ==> pending == 1)
    ensures HolderDriven(u, w, Handle(u.env, u.holderNetwork, u.device, side, w, e, luck, i), if e.Joined? then 0 else pending)
  {
    match e
    case Joined => HolderFinishes(u, w, side, luck, i);
    case Paired =>
      NoteKeeps(u, w, Finishes(Creator));
      var w' := Note(w, Finishes(Creator));
      var s := Finish(side.session);
      assert HolderSession(u, w, s, pending);
      HolderSessionStays(u, w, w', Creator, s, pending);
      HolderStoreStays(u, w, w', side.store);
    case _ =>
  }

  lemma HolderEventsStay(u: Setup, w: World, w': World, role: Role, events: seq<FlowEvent>)
    requires HolderEvents(u, w, events) && Extends(w, w', role)
    ensures HolderEvents(u, w', events)
  {
    forall e | e in events ensures EventOk(u, w', e) {
      if e.Paired? {
        ExtendsMember(w, w', role, Posted(Joiner, DoneMsg(u)));
      }
    }
  }

  lemma {:induction false} HolderHandlesAll(u: Setup, w: World, side: Side, events: seq<FlowEvent>, luck: Luck, i: nat)
    requires WorldOk(u, w) && HolderSession(u, w, side.session, Joins(events)) && HolderStore(u, w, side.store)
    requires HolderEvents(u, w, events)
    ensures HolderDriven(u, w, HandleAll(u.env, u.holderNetwork, u.device, side, w, events, luck, i), 0)
    decreases |events|
  {
    if events != [] {
      var d := Handle(u.env, u.holderNetwork, u.device, side, w, events[0], luck, i);
      HolderHandles(u, w, side, events[0], luck, i, Joins(events));
      if d.2.Ok? {
        HolderEventsStay(u, w, d.1, Creator, events[1..]);
        HolderHandlesAll(u, d.1, d.0, events[1..], luck, i + 1);
        ExtendsTwice(w, d.1, HandleAll(u.env, u.holderNetwork, u.device, d.0, d.1, events[1..], luck, i + 1).1, Creator);
      }
    }
  }

  // ---- the steps of the holder ----

  ghost predicate HolderOk(u: Setup, w: World, side: Side) {
    HolderSession(u, w, side.session, 0) && HolderStore(u, w, side.store)
  }

  lemma HolderFetches(u: Setup, w: World, s: Session, batch: seq<RelayMessage>)
    requires WorldOk(u, w) && HolderSession(u, w, s, 0) && s.Active()
    requires forall m :: m in batch ==> Readable(u, w, m.payload) && (s.stage == Open ==> FromJoiner(u, m.payload))
    ensures var (s', r) := Accept(u.env, s, batch);
      match r
      case Err(_) => HolderSession(u, w, s', 0)
      case Ok(events) => HolderSession(u, w, s', Joins(events)) && HolderEvents(u, w, events)
  {
    CatchUp.SortSorts(batch);
    HolderAccepts(u, w, s, SortBySeq(batch), 0);
  }

  lemma HolderHandlesBatch(u: Setup, w: World, side: Side, events: seq<FlowEvent>, luck: Luck)
    requires WorldOk(u, w) && HolderSession(u, w, side.session, Joins(events)) && HolderStore(u, w, side.store)
    requires HolderEvents(u, w, events)
    ensures var d := AbortOnError(HandleAll(u.env, u.holderNetwork, u.device, side, w, events, luck, 1), luck, 0);
      WorldOk(u, d.1) && Extends(w, d.1, Creator) && HolderOk(u, d.1, d.0)
  {
    HolderHandlesAll(u, w, side, events, luck, 1);
  }

  lemma HolderPumps(u: Setup, w: World, side: Side, batch: seq<RelayMessage>, luck: Luck)
    requires WorldOk(u, w) && HolderOk(u, w, side)
    requires forall m :: m in batch ==>
      Readable(u, w, m.payload) && (side.session.stage == Open ==> FromJoiner(u, m.payload))
    ensures var d := Pump(u.env, u.holderNetwork, u.device, side, w, batch, luck);
      WorldOk(u, d.1) && Extends(w, d.1, Creator) && HolderOk(u, d.1, d.0)
  {
    HolderEnds(u, w, side.session, Failed);
    if side.session.Active() && luck(0, FetchMessages) == Works {
      HolderFetches(u, w, side.session, batch);
      match Accept(u.env, side.session, batch)
      case (s, Err(_)) => HolderEnds(u, w, s, Failed);
      case (s, Ok(events)) => HolderHandlesBatch(u, w, side.(session := s), events, luck);
    }
  }

  lemma HolderPrepares(u: Setup, w: World, side: Side, luck: Luck)
    requires HolderOk(u, w, side)
    ensures HolderOk(u, w, PrepareHolder(side, luck).0)
  {
  }

  lemma HolderSealsOffer(u: Setup, w: World, s: Session, typed: string)
    requires HolderSession(u, w, s, 0) && Typed(Creator, typed) in w.history
    ensures var (s', r) := Confirm(u.env, s, typed);
      && HolderSession(u, w, s', 0)
      && (r.Ok? && r.value.Some? ==>
            && r.value.value.payload == Sealed(Cid(u), Creator, 0, Json(OfferMsg(u)))
            && u.master.Some? && TypedRight(u, w.history, Creator))
  {
    HolderEnds(u, w, s, WrongCode);
  }

  /** The offer that the confirmation sealed is posted. */
  lemma HolderOffers(u: Setup, w: World, side: Side, out: Outgoing, luck: Luck)
    requires WorldOk(u, w) && HolderOk(u, w, side)
    requires out.payload == Sealed(Cid(u), Creator, 0, Json(OfferMsg(u))) && u.master.Some?
    requires TypedRight(u, w.history, Creator)
    ensures HolderDriven(u, w, AfterConfirm(u.env, side, w, Some(out), luck), 0)
  {
    var s := side.session;
    HolderEnds(u, w, s, Failed);
    HolderPosts(u, w, side, (s, Ok(out)), luck, 0, 0);
    assert side.(session := s) == side;
  }

  /** The typed code is in the history; the session takes it. */
  lemma HolderTypes(u: Setup, w: World, side: Side, typed: string, luck: Luck)
    requires WorldOk(u, w) && HolderOk(u, w, side) && Typed(Creator, typed) in w.history
    ensures var (s, sealed) := Confirm(u.env, side.session, typed);
      && HolderOk(u, w, side.(session := s))
      && (sealed.Ok? ==> HolderDriven(u, w, AfterConfirm(u.env, side.(session := s), w, sealed.value, luck), 0))
  {
    HolderSealsOffer(u, w, side.session, typed);
    var (s, sealed) := Confirm(u.env, side.session, typed);
    if sealed.Ok? && sealed.value.Some? {
      HolderOffers(u, w, side.(session := s), sealed.value.value, luck);
    }
  }

  lemma HolderConfirmsNoted(u: Setup, w: World, side: Side, typed: string, luck: Luck)
    requires WorldOk(u, w) && HolderOk(u, w, side) && Typed(Creator, typed) in w.history
    ensures var d := ConfirmPrepared(u.env, side, w, typed, luck);
      WorldOk(u, d.1) && Extends(w, d.1, Creator) && HolderOk(u, d.1, d.0)
  {
    HolderTypes(u, w, side, typed, luck);
  }

  lemma HolderConfirms(u: Setup, w: World, side: Side, typed: string, luck: Luck)
    requires WorldOk(u, w) && HolderOk(u, w, side)
    ensures var d := ConfirmCode(u.env, side, w, typed, luck);
      WorldOk(u, d.1) && Extends(w, d.1, Creator) && HolderOk(u, d.1, d.0)
  {
    var w0 := Note(w, Typed(Creator, typed));
    NoteKeeps(u, w, Typed(Creator, typed));
    HolderSessionStays(u, w, w0, Creator, side.session, 0);
    HolderStoreStays(u, w, w0, side.store);
    HolderPrepares(u, w0, side, luck);
    var (prepared, r) := PrepareHolder(side, luck);
    if r.Ok? {
      HolderConfirmsNoted(u, w0, prepared, typed, luck);
      ExtendsTwice(w, w0, ConfirmPrepared(u.env, prepared, w0, typed, luck).1, Creator);
    }
  }

  /** Whatever the holder does next, both it and the world stay in order. */
  lemma HolderStep(u: Setup, w: World, side: Side, step: Step)
    requires WorldOk(u, w) && HolderOk(u, w, side) && !step.JoinStep?
    requires step.PumpStep? ==> forall m :: m in step.batch ==>
      Readable(u, w, m.payload) && (side.session.stage == Open ==> FromJoiner(u, m.payload))
    ensures var (side', w') := SideStep(u, u.holderNetwork, side, w, step);
      WorldOk(u, w') && Extends(w, w', Creator) && HolderOk(u, w', side')
  {
    match step
    case PumpStep(_, batch, luck) => HolderPumps(u, w, side, batch, luck);
    case ConfirmStep(_, typed, luck) => HolderConfirms(u, w, side, typed, luck);
    case CancelStep(_, luck) => HolderEnds(u, w, side.session, Cancelled);
    case TickStep(_, now, luck) => HolderEnds(u, w, side.session, Timeout);
    case ClosedStep(_, reason, luck) => HolderEnds(u, w, side.session, Closed(reason));
  }

  /** What the joiner does leaves the holder in order. */
  lemma HolderUntouched(u: Setup, w: World, w': World, side: Side)
    requires HolderOk(u, w, side) && Extends(w, w', Joiner)
    ensures HolderOk(u, w', side)
  {
    HolderSessionStays(u, w, w', Joiner, side.session, 0);
    HolderStoreStays(u, w, w', side.store);
  }
}
