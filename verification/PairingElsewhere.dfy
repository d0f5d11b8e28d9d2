/** A holder whose channel is with somebody else than the joiner: what it keeps, and what it can have done. */
module PairingElsewhere {
  import opened Base
  import opened Grants
  import opened PairingTypes
  import opened PairingSpec
  import opened PairingDriver
  import opened PairingHistory
  import CatchUp = PairingCatchUp
  import H = PairingHolder
  import Laws = PairingLaws
  import Text

  // ---- what it keeps ----

  /** The user of the holder typed this code. */
  ghost predicate TypedCode(history: seq<Happening>, code: CheckCode) {
    exists text :: Text.ParseU8(Text.Trim(text)) == Some(code) && Typed(Creator, text) in history
  }

  /** The session of the holder holds, or held, the channel `id`. */
  ghost predicate Holds(u: Setup, w: World, s: Session, id: ChannelId) {
    && id != Cid(u)
    && Laws.WellFormed(u.env, s) && s.role == Creator && s.stage != Open
    && s.code == Some(u.env.code(id)) && (s.channel.Some? ==> s.channel.value.id == id)
    && (s.ownConfirmed || s.stage == Finished ==> TypedCode(w.history, u.env.code(id)))
    && (s.master.Some? ==> u.master.Some? && s.master.value == MasterKey(u))
  }

  /**
   * The grant is the one that the holder builds from its own list for the device that it read, and the id
   * signature that it read with that device verifies for its master.
   */
  ghost predicate GrantToPeer(u: Setup, s: Session, grant: Grant) {
    && u.master.Some? && u.list.Some? && PeerIdSignatureValid(s) && s.master.value == MasterKey(u)
    && BuildGrant(u.master.value, u.list.value, s.peerDevice.value.ed25519) == Ok(grant)
  }

  /** What the session may have sealed: its offer, then one answer. */
  function MaySend(s: Session): nat {
    if !s.offerSent then 0 else if s.peerDevice.None? then 1 else 2
  }

  /** The server took nothing, or the one grant for the device that was read; `pending` joins are not answered yet. */
  ghost predicate Answers(u: Setup, w: World, s: Session, pending: nat) {
    && pending <= (if s.peerDevice.Some? then 1 else 0)
    && (w.grant.Some? ==> pending == 0 && GrantToPeer(u, s, w.grant.value))
    && (s.channel.Some? ==> s.channel.value.sent + pending <= MaySend(s))
  }

  ghost predicate StoreThere(u: Setup, w: World, store: Store) {
    store.master == u.master && (w.grant.None? ==> store.list == u.list)
  }

  /** The side of such a holder. */
  ghost predicate Elsewhere(u: Setup, w: World, side: Side, id: ChannelId, pending: nat) {
    Holds(u, w, side.session, id) && Answers(u, w, side.session, pending) && StoreThere(u, w, side.store)
  }

  /** A list was put only after the user typed the code of the channel. */
  ghost predicate Backed(u: Setup, before: seq<Happening>, e: Happening, id: ChannelId) {
    e.Put? ==> TypedCode(before, u.env.code(id))
  }

  ghost predicate AllBacked(u: Setup, history: seq<Happening>, id: ChannelId) {
    forall i {:trigger Backed(u, history[..i], history[i], id)} :: 0 <= i < |history| ==> Backed(u, history[..i], history[i], id)
  }

  /** All that the joiner did is to type and to say hello. */
  predicate OnlyHello(e: Happening) {
    Doer(e) == Joiner ==> e.Typed? || e == Posted(Joiner, Hello(WIRE_VERSION))
  }

  ghost predicate JoinerIdle(history: seq<Happening>) {
    forall e :: e in history ==> OnlyHello(e)
  }

  /** The message is the hello of the joiner, or one of the two that the holder seals for the other channel. */
  predicate Apart(u: Setup, m: RelayMessage, id: ChannelId) {
    match m.from
    case Joiner => m.payload == HelloPayload(u)
    case Creator => m.payload.Sealed? && m.payload.id == id && m.payload.n <= 1
  }

  ghost predicate AllApart(u: Setup, relay: seq<RelayMessage>, id: ChannelId) {
    forall m :: m in relay ==> Apart(u, m, id)
  }

  ghost predicate OnePutOnly(w: World) {
    forall grant :: Put(grant) in w.history ==> w.grant == Some(grant)
  }

  ghost predicate ForeignWorld(u: Setup, w: World, id: ChannelId) {
    AllApart(u, w.relay, id) && AllBacked(u, w.history, id) && JoinerIdle(w.history) && OnePutOnly(w)
  }

  // ---- a driver step of such a holder ----

  /** From `w` to `w'` the holder did something in its channel. */
  ghost predicate Onward(u: Setup, w: World, w': World, id: ChannelId) {
    ForeignWorld(u, w', id) && w.history <= w'.history
  }

  ghost predicate DrivenThere(u: Setup, w: World, d: Driven, id: ChannelId, pending: nat) {
    Onward(u, w, d.1, id) && Elsewhere(u, d.1, d.0, id, pending)
  }

  lemma TypedStays(history: seq<Happening>, longer: seq<Happening>, code: CheckCode)
    requires TypedCode(history, code) && history <= longer
    ensures TypedCode(longer, code)
  {
    var text :| Text.ParseU8(Text.Trim(text)) == Some(code) && Typed(Creator, text) in history;
    var i :| 0 <= i < |history| && history[i] == Typed(Creator, text);
    assert longer[i] == Typed(Creator, text);
  }

  lemma HoldsOn(u: Setup, w: World, w': World, s: Session, id: ChannelId)
    requires Holds(u, w, s, id) && w.history <= w'.history
    ensures Holds(u, w', s, id)
  {
    if TypedCode(w.history, u.env.code(id)) {
      TypedStays(w.history, w'.history, u.env.code(id));
    }
  }

  lemma StaysElsewhere(u: Setup, w: World, w': World, side: Side, id: ChannelId, pending: nat)
    requires Elsewhere(u, w, side, id, pending) && w.history <= w'.history && w'.grant == w.grant
    ensures Elsewhere(u, w', side, id, pending)
  {
    HoldsOn(u, w, w', side.session, id);
  }

  lemma EndsElsewhere(u: Setup, w: World, side: Side, reason: EndReason, id: ChannelId, pending: nat)
    requires Elsewhere(u, w, side, id, pending)
    ensures Elsewhere(u, w, side.(session := End(side.session, reason)), id, 0)
  {
  }

  lemma NoteBacked(u: Setup, history: seq<Happening>, e: Happening, id: ChannelId)
    requires AllBacked(u, history, id) && Backed(u, history, e, id)
    ensures AllBacked(u, history + [e], id)
  {
    var longer := history + [e];
    forall i | 0 <= i < |longer| ensures Backed(u, longer[..i], longer[i], id) {
      if i < |history| {
        assert longer[..i] == history[..i];
        assert Backed(u, history[..i], history[i], id);
      } else {
        assert longer[..i] == history;
      }
    }
  }

  lemma NoteOnward(u: Setup, w: World, e: Happening, id: ChannelId)
    requires ForeignWorld(u, w, id) && OnlyHello(e) && !e.Put?
    ensures Onward(u, w, Note(w, e), id)
  {
    NoteBacked(u, w.history, e, id);
  }

  /** What is posted in the other channel. */
  predicate Outside(out: Outgoing, id: ChannelId) {
    out.payload.Sealed? && out.payload.id == id && out.payload.n <= 1
  }

  lemma AppendOnward(u: Setup, w: World, role: Role, payload: Payload, id: ChannelId)
    requires ForeignWorld(u, w, id) && Apart(u, RelayMessage(|w.relay| + 1, role, payload), id)
    requires OnlyHello(Posted(role, MessageOf(payload)))
    ensures Onward(u, w, Append(w, role, payload), id)
  {
    var e, w' := Posted(role, MessageOf(payload)), Append(w, role, payload);
    NoteBacked(u, w.history, e, id);
    assert w'.history == w.history + [e];
    forall m | m in w'.relay ensures Apart(u, m, id) {
      assert m in w.relay || m == RelayMessage(|w.relay| + 1, role, payload);
    }
  }

  lemma PostOnward(u: Setup, w: World, out: Outgoing, outcome: Outcome, id: ChannelId)
    requires ForeignWorld(u, w, id) && Outside(out, id)
    ensures var w' := Post(u.env, w, Creator, out, outcome).0; Onward(u, w, w', id) && w'.grant == w.grant
  {
    AppendOnward(u, w, Creator, out.payload, id);
  }

  /** What a step of the session seals may be posted. */
  lemma PostSealedElsewhere(u: Setup, side: Side, w: World, sealed: (Session, Result<Outgoing, FlowError>), luck: Luck, i: nat,
                            id: ChannelId)
    requires ForeignWorld(u, w, id) && side.session.role == Creator
    requires Elsewhere(u, w, side.(session := sealed.0), id, 0) && (sealed.1.Ok? ==> Outside(sealed.1.value, id))
    ensures DrivenThere(u, w, PostSealed(u.env, side, w, sealed, luck, i), id, 0)
  {
    if sealed.1.Ok? {
      PostOnward(u, w, sealed.1.value, luck(i, PostMessage), id);
      var w' := Post(u.env, w, Creator, sealed.1.value, luck(i, PostMessage)).0;
      StaysElsewhere(u, w, w', side.(session := sealed.0), id, 0);
    }
  }

  lemma SealElsewhere(u: Setup, w: World, s: Session, m: Message, id: ChannelId)
    requires Holds(u, w, s, id)
    ensures var (s', r) := Seal(u.env, s, m);
      && Holds(u, w, s', id) && s' == s.(channel := s'.channel, relayCount := s'.relayCount, relayBytes := s'.relayBytes)
      && (r.Err? ==> s' == s)
      && (r.Ok? ==>
            && s.channel.Some? && s'.channel == Some(s.channel.value.(sent := s.channel.value.sent + 1))
            && r.value.payload.Sealed? && r.value.payload.id == id && r.value.payload.n == s.channel.value.sent)
  {
    Laws.SealKeeps(u.env, s, m);
  }

  /** Sealing an answer: the second message of the holder. */
  lemma AnswerIsSealed(u: Setup, w: World, s: Session, m: Message, id: ChannelId)
    requires Holds(u, w, s, id) && Answers(u, w, s, 0) && s.peerDevice.Some?
    requires s.channel.Some? ==> s.channel.value.sent <= 1
    ensures var (s', r) := Seal(u.env, s, m);
      Holds(u, w, s', id) && Answers(u, w, s', 0) && (r.Ok? ==> Outside(r.value, id))
  {
    SealElsewhere(u, w, s, m, id);
  }

  lemma RefuseElsewhere(u: Setup, side: Side, w: World, reason: string, luck: Luck, i: nat, id: ChannelId)
    requires ForeignWorld(u, w, id) && Elsewhere(u, w, side, id, 1)
    ensures DrivenThere(u, w, Refuse(u.env, side, w, reason, luck, i), id, 0)
  {
    var s := side.session;
    var m := Signed(WIRE_VERSION, [], [WireReason(s.network, reason)]);
    AnswerIsSealed(u, w, s, m, id);
    EndsElsewhere(u, w, side.(session := Seal(u.env, s, m).0), Failed, id, 0);
    PostSealedElsewhere(u, side, w, SealRefusal(u.env, s, reason), luck, i, id);
  }

  /** The list is kept and the answer posted. */
  lemma AnswerElsewhere(u: Setup, side: Side, w: World, grant: Grant, luck: Luck, i: nat, id: ChannelId)
    requires ForeignWorld(u, w, id) && Elsewhere(u, w, side, id, 0) && w.grant.Some? && side.session.peerDevice.Some?
    requires side.session.channel.Some? ==> side.session.channel.value.sent <= 1
    ensures DrivenThere(u, w, AnswerGrant(u.env, side, w, grant, luck, i), id, 0)
  {
    if luck(i, SaveList) == Works {
      var kept := side.(store := side.store.(list := Some(grant.list)));
      var w1 := Note(w, Kept(Creator, grant.list));
      NoteOnward(u, w, Kept(Creator, grant.list), id);
      StaysElsewhere(u, w, w1, kept, id, 0);
      AnswerIsSealed(u, w1, side.session, SignedMessage(side.session.network, grant), id);
      PostSealedElsewhere(u, kept, w1, SealSigned(u.env, side.session, grant), luck, i, id);
    }
  }

  /** The server takes the first list. */
  lemma PutOnward(u: Setup, w: World, side: Side, grant: Grant, id: ChannelId)
    requires ForeignWorld(u, w, id) && Elsewhere(u, w, side, id, 1)
    requires side.session.ownConfirmed && GrantToPeer(u, side.session, grant)
    ensures var put := H.PutWorld(w, grant); Onward(u, w, put, id) && Elsewhere(u, put, side, id, 0)
  {
    var put := H.PutWorld(w, grant);
    NoteBacked(u, w.history, Put(grant), id);
    assert put.history == w.history + [Put(grant)];
    HoldsOn(u, w, put, side.session, id);
  }

  lemma PutElsewhere(u: Setup, side: Side, w: World, grant: Grant, luck: Luck, i: nat, id: ChannelId)
    requires ForeignWorld(u, w, id) && Elsewhere(u, w, side, id, 1)
    requires side.session.ownConfirmed && GrantToPeer(u, side.session, grant)
    ensures DrivenThere(u, w, PutGrant(u.env, side, w, grant, luck, i), id, 0)
  {
    PutOnward(u, w, side, grant, id);
    if luck(i, PutList) == Works {
      AnswerElsewhere(u, side, H.PutWorld(w, grant), grant, luck, i, id);
    }
  }

  lemma GrantElsewhere(u: Setup, side: Side, w: World, luck: Luck, i: nat, id: ChannelId)
    requires ForeignWorld(u, w, id) && Elsewhere(u, w, side, id, 1) && side.session.ownConfirmed
    requires u.master.Some? && u.list.Some? && PeerIdSignatureValid(side.session)
    ensures DrivenThere(u, w,
      GrantTo(u.env, side, w, u.master.value, u.list.value, side.session.peerDevice.value.ed25519, luck, i), id, 0)
  {
    var device := side.session.peerDevice.value.ed25519;
    if device in u.list.value.keys {
      RefuseElsewhere(u, side, w, "paired", luck, i, id);
    } else {
      match BuildGrant(u.master.value, u.list.value, device)
      case Err(ListFull) => RefuseElsewhere(u, side, w, "full", luck, i, id);
      case Err(_) =>
      case Ok(grant) => PutElsewhere(u, side, w, grant, luck, i, id);
    }
  }

  lemma FinishElsewhere(u: Setup, side: Side, w: World, luck: Luck, i: nat, id: ChannelId)
    requires ForeignWorld(u, w, id) && Elsewhere(u, w, side, id, 1)
    ensures DrivenThere(u, w, FinishCreator(u.env, side, w, luck, i), id, 0)
  {
    if ConfirmedDevice(side.session).Some? {
      if !PeerIdSignatureValid(side.session) {
        RefuseElsewhere(u, side, w, "failed", luck, i, id);
      } else if luck(i, ReadMaster) == Works && side.store.master.Some? && side.store.list.Some? {
        GrantElsewhere(u, side, w, luck, i, id);
      }
    }
  }

  /** What the driver may rely on while an event waits. */
  ghost predicate Expected(u: Setup, w: World, e: FlowEvent, id: ChannelId) {
    !e.SignedAnswer? && (e.Paired? ==> TypedCode(w.history, u.env.code(id)))
  }

  ghost predicate AllExpected(u: Setup, w: World, events: seq<FlowEvent>, id: ChannelId) {
    forall e :: e in events ==> Expected(u, w, e, id)
  }

  lemma FinishedElsewhere(u: Setup, w: World, side: Side, luck: Luck, i: nat, id: ChannelId, pending: nat)
    requires Elsewhere(u, w, side, id, pending) && TypedCode(w.history, u.env.code(id))
    ensures Elsewhere(u, w, Cleanup(side.(session := Finish(side.session)), luck, i), id, pending)
  {
  }

  lemma PairedElsewhere(u: Setup, side: Side, w: World, luck: Luck, i: nat, id: ChannelId, pending: nat)
    requires ForeignWorld(u, w, id) && Elsewhere(u, w, side, id, pending) && TypedCode(w.history, u.env.code(id))
    ensures DrivenThere(u, w, Handle(u.env, u.holderNetwork, u.device, side, w, Paired, luck, i), id, pending)
  {
    var done := Cleanup(side.(session := Finish(side.session)), luck, i);
    var w' := Note(w, Finishes(Creator));
    FinishedElsewhere(u, w, side, luck, i, id, pending);
    NoteOnward(u, w, Finishes(Creator), id);
    StaysElsewhere(u, w, w', done, id, pending);
    assert Handle(u.env, u.holderNetwork, u.device, side, w, Paired, luck, i) == (done, w', Ok(()));
  }

  lemma HandleElsewhere(u: Setup, side: Side, w: World, e: FlowEvent, luck: Luck, i: nat, id: ChannelId, pending: nat)
    requires ForeignWorld(u, w, id) && Elsewhere(u, w, side, id, pending)
    requires Expected(u, w, e, id) && (e.Joined? ==> pending == 1)
    ensures DrivenThere(u, w, Handle(u.env, u.holderNetwork, u.device, side, w, e, luck, i), id, if e.Joined? then 0 else pending)
  {
    match e
    case Joined => FinishElsewhere(u, side, w, luck, i, id);
    case Paired => PairedElsewhere(u, side, w, luck, i, id, pending);
    case _ =>
  }

  lemma StillExpected(u: Setup, w: World, w': World, events: seq<FlowEvent>, id: ChannelId)
    requires AllExpected(u, w, events, id) && w.history <= w'.history
    ensures AllExpected(u, w', events, id)
  {
    if TypedCode(w.history, u.env.code(id)) {
      TypedStays(w.history, w'.history, u.env.code(id));
    }
  }

  lemma {:induction false} HandleAllElsewhere(u: Setup, side: Side, w: World, events: seq<FlowEvent>, luck: Luck, i: nat, id: ChannelId)
    requires ForeignWorld(u, w, id) && Elsewhere(u, w, side, id, H.Joins(events)) && AllExpected(u, w, events, id)
    ensures DrivenThere(u, w, HandleAll(u.env, u.holderNetwork, u.device, side, w, events, luck, i), id, 0)
    decreases |events|
  {
    if events != [] {
      var d := Handle(u.env, u.holderNetwork, u.device, side, w, events[0], luck, i);
      HandleElsewhere(u, side, w, events[0], luck, i, id, H.Joins(events));
      if d.2.Ok? {
        StillExpected(u, w, d.1, events[1..], id);
        HandleAllElsewhere(u, d.0, d.1, events[1..], luck, i + 1, id);
      }
    }
  }

  // ---- taking messages in ----

  /** What reading one message, or a batch, leads to. */
  ghost predicate ReadThere(u: Setup, w: World, s: Session, events: Result<seq<FlowEvent>, FlowError>, id: ChannelId, pending: nat) {
    && Holds(u, w, s, id)
    && match events
       case Err(_) => Answers(u, w, s, 0)
       case Ok(list) => Answers(u, w, s, pending + H.Joins(list)) && AllExpected(u, w, list, id)
  }

  function Listed(r: Result<Option<FlowEvent>, FlowError>): Result<seq<FlowEvent>, FlowError> {
    match r case Err(e) => Err(e) case Ok(event) => Ok(EventList(event))
  }

  lemma JoinElsewhere(u: Setup, w: World, s: Session, joined: seq<WireJoined>, id: ChannelId, pending: nat)
    requires Holds(u, w, s, id) && Answers(u, w, s, pending) && s.stage == Keyed
    ensures var (s', r) := TakeJoin(s, joined); ReadThere(u, w, s', Listed(r), id, pending)
  {
  }

  lemma DoneElsewhere(u: Setup, w: World, s: Session, paired: seq<string>, id: ChannelId, pending: nat)
    requires Holds(u, w, s, id) && Answers(u, w, s, pending) && s.stage == Keyed
    ensures var (s', r) := TakeDone(s, paired); ReadThere(u, w, s', Listed(r), id, pending)
  {
  }

  lemma PlainElsewhere(u: Setup, w: World, s: Session, plain: Plain, id: ChannelId, pending: nat)
    requires Holds(u, w, s, id) && Answers(u, w, s, pending) && s.stage == Keyed
    ensures var (s', r) := TakePlain(s, plain); ReadThere(u, w, s', Listed(r), id, pending)
  {
    match ReadWire(plain)
    case Some(Join(_, joined, _)) => JoinElsewhere(u, w, s, joined, id, pending);
    case Some(Done(_, paired)) => DoneElsewhere(u, w, s, paired, id, pending);
    case _ =>
  }

  lemma SealedElsewhere(u: Setup, w: World, s: Session, payload: Payload, id: ChannelId, pending: nat)
    requires Holds(u, w, s, id) && Answers(u, w, s, pending) && s.stage == Keyed
    ensures var (s', r) := TakeSealed(s, payload); ReadThere(u, w, s', Listed(r), id, pending)
  {
    if payload.Sealed? && Opens(s.channel.value, payload) {
      assert Holds(u, w, Opened(s), id) && Answers(u, w, Opened(s), pending);
      PlainElsewhere(u, w, Opened(s), payload.plain, id, pending);
    }
  }

  /** A session that opened no channel, or lost it, reads nothing. */
  lemma NothingReadElsewhere(u: Setup, w: World, s: Session, id: ChannelId, pending: nat)
    requires Holds(u, w, s, id) && Answers(u, w, s, pending)
    ensures ReadThere(u, w, s, Ok([]), id, pending) && ReadThere(u, w, End(s, BadMessage), Err(MessageIsBad), id, pending)
  {
  }

  /** Counting a message leaves all this as it is. */
  lemma CountedElsewhere(u: Setup, w: World, s: Session, lastSeq: nat, count: nat, bytes: nat, id: ChannelId, pending: nat)
    requires Holds(u, w, s, id) && Answers(u, w, s, pending)
    ensures var s' := s.(lastSeq := lastSeq, relayCount := count, relayBytes := bytes);
      Holds(u, w, s', id) && Answers(u, w, s', pending)
  {
  }

  lemma AcceptOneElsewhere(u: Setup, w: World, s: Session, m: RelayMessage, id: ChannelId, pending: nat)
    requires Holds(u, w, s, id) && Answers(u, w, s, pending)
    ensures var (s', r) := AcceptOne(u.env, s, m); ReadThere(u, w, s', Listed(r), id, pending)
  {
    if m.seqno <= s.lastSeq {
      NothingReadElsewhere(u, w, s, id, pending);
    } else {
      var seen, counted := s.(lastSeq := m.seqno), Counted(u.env, s, m);
      CountedElsewhere(u, w, s, m.seqno, s.relayCount, s.relayBytes, id, pending);
      CountedElsewhere(u, w, s, m.seqno, counted.relayCount, counted.relayBytes, id, pending);
      assert seen == s.(lastSeq := m.seqno, relayCount := s.relayCount, relayBytes := s.relayBytes);
      NothingReadElsewhere(u, w, seen, id, pending);
      NothingReadElsewhere(u, w, counted, id, pending);
      if s.stage == Keyed {
        SealedElsewhere(u, w, counted, m.payload, id, pending);
      }
    }
  }

  lemma ReadBefore(u: Setup, w: World, e: Option<FlowEvent>, rest: Accepted, id: ChannelId, pending: nat)
    requires e.Some? ==> Expected(u, w, e.value, id)
    requires ReadThere(u, w, rest.0, rest.1, id, pending + H.Joins(EventList(e)))
    ensures var all := Before(EventList(e), rest); ReadThere(u, w, all.0, all.1, id, pending)
  {
    if rest.1.Ok? {
      var more := rest.1.value;
      match e
      case None => assert [] + more == more;
      case Some(event) =>
        assert ([event] + more)[1..] == more && [event][1..] == [];
        assert H.Joins([event] + more) == H.Joins([event]) + H.Joins(more);
    }
  }

  lemma {:induction false} AcceptElsewhere(u: Setup, w: World, s: Session, sorted: seq<RelayMessage>, id: ChannelId, pending: nat)
    requires Holds(u, w, s, id) && Answers(u, w, s, pending)
    ensures var (s', r) := AcceptSorted(u.env, s, sorted); ReadThere(u, w, s', r, id, pending)
    decreases |sorted|
  {
    if sorted != [] {
      AcceptOneElsewhere(u, w, s, sorted[0], id, pending);
      var (s1, r1) := AcceptOne(u.env, s, sorted[0]);
      if r1.Ok? {
        AcceptElsewhere(u, w, s1, sorted[1..], id, pending + H.Joins(EventList(r1.value)));
        assert r1.value.Some? ==> r1.value.value in EventList(r1.value);
        ReadBefore(u, w, r1.value, AcceptSorted(u.env, s1, sorted[1..]), id, pending);
      }
    }
  }

  // ---- the steps of such a holder ----

  /** A pump in another channel. */
  lemma PumpElsewhere(u: Setup, side: Side, w: World, events: seq<FlowEvent>, luck: Luck, id: ChannelId)
    requires ForeignWorld(u, w, id) && Elsewhere(u, w, side, id, H.Joins(events)) && AllExpected(u, w, events, id)
    ensures DrivenThere(u, w, AbortOnError(HandleAll(u.env, u.holderNetwork, u.device, side, w, events, luck, 1), luck, 0), id, 0)
  {
    HandleAllElsewhere(u, side, w, events, luck, 1, id);
    var d := HandleAll(u.env, u.holderNetwork, u.device, side, w, events, luck, 1);
    EndsElsewhere(u, d.1, d.0, Failed, id, 0);
  }

  lemma AbortElsewhere(u: Setup, side: Side, w: World, e: DriveError, luck: Luck, id: ChannelId)
    requires ForeignWorld(u, w, id) && Elsewhere(u, w, side, id, 0)
    ensures DrivenThere(u, w, Abort((side, w, Err(e)), luck, 0), id, 0)
  {
    EndsElsewhere(u, w, side, Failed, id, 0);
  }

  lemma ForeignPumps(u: Setup, side: Side, w: World, batch: seq<RelayMessage>, luck: Luck, id: ChannelId)
    requires ForeignWorld(u, w, id) && Elsewhere(u, w, side, id, 0)
    ensures DrivenThere(u, w, Pump(u.env, u.holderNetwork, u.device, side, w, batch, luck), id, 0)
  {
    if side.session.Active() {
      if luck(0, FetchMessages) != Works {
        AbortElsewhere(u, side, w, CallFailed, luck, id);
      } else {
        AcceptElsewhere(u, w, side.session, SortBySeq(batch), id, 0);
        match Accept(u.env, side.session, batch)
        case (s, Err(e)) => AbortElsewhere(u, side.(session := s), w, Flow(e), luck, id);
        case (s, Ok(events)) => PumpElsewhere(u, side.(session := s), w, events, luck, id);
      }
    }
  }

  lemma PrepareElsewhere(u: Setup, side: Side, w: World, luck: Luck, id: ChannelId)
    requires Elsewhere(u, w, side, id, 0)
    ensures Elsewhere(u, w, PrepareHolder(side, luck).0, id, 0)
  {
  }

  /** The first right code seals the offer, the first message of the holder. */
  lemma ConfirmElsewhere(u: Setup, w: World, s: Session, typed: string, id: ChannelId)
    requires Holds(u, w, s, id) && Answers(u, w, s, 0) && Typed(Creator, typed) in w.history
    ensures var (s', r) := Confirm(u.env, s, typed);
      && Holds(u, w, s', id) && Answers(u, w, s', 0)
      && (r.Ok? && r.value.Some? ==> Outside(r.value.value, id))
  {
    Laws.ConfirmKeeps(u.env, s, typed);
    if s.master.Some? {
      SealElsewhere(u, w, s, Offer(WIRE_VERSION, [WireNetwork(s.network, s.master.value)], []), id);
    }
  }

  lemma AfterConfirmElsewhere(u: Setup, side: Side, w: World, sealed: Option<Outgoing>, luck: Luck, id: ChannelId)
    requires ForeignWorld(u, w, id) && Elsewhere(u, w, side, id, 0) && (sealed.Some? ==> Outside(sealed.value, id))
    ensures DrivenThere(u, w, AbortOnError(AfterConfirm(u.env, side, w, sealed, luck), luck, 0), id, 0)
  {
    EndsElsewhere(u, w, side, Failed, id, 0);
    if sealed.Some? {
      PostOnward(u, w, sealed.value, luck(0, PostMessage), id);
      var w' := Post(u.env, w, Creator, sealed.value, luck(0, PostMessage)).0;
      StaysElsewhere(u, w, w', side, id, 0);
      EndsElsewhere(u, w', side, Failed, id, 0);
    }
  }

  lemma ConfirmPreparedElsewhere(u: Setup, side: Side, w: World, typed: string, luck: Luck, id: ChannelId)
    requires ForeignWorld(u, w, id) && Elsewhere(u, w, side, id, 0) && Typed(Creator, typed) in w.history
    ensures DrivenThere(u, w, ConfirmPrepared(u.env, side, w, typed, luck), id, 0)
  {
    ConfirmElsewhere(u, w, side.session, typed, id);
    match Confirm(u.env, side.session, typed)
    case (s, Ok(sealed)) => AfterConfirmElsewhere(u, side.(session := s), w, sealed, luck, id);
    case (_, Err(_)) =>
  }

  lemma ForeignConfirms(u: Setup, side: Side, w: World, typed: string, luck: Luck, id: ChannelId)
    requires ForeignWorld(u, w, id) && Elsewhere(u, w, side, id, 0)
    ensures DrivenThere(u, w, ConfirmCode(u.env, side, w, typed, luck), id, 0)
  {
    var w0 := Note(w, Typed(Creator, typed));
    NoteOnward(u, w, Typed(Creator, typed), id);
    assert w0.history[|w.history|] == Typed(Creator, typed);
    StaysElsewhere(u, w, w0, side, id, 0);
    PrepareElsewhere(u, side, w0, luck, id);
    match PrepareHolder(side, luck)
    case (prepared, Ok(_)) => ConfirmPreparedElsewhere(u, prepared, w0, typed, luck, id);
    case (_, Err(_)) =>
  }

  lemma ForeignStep(u: Setup, side: Side, w: World, step: Step, id: ChannelId)
    requires ForeignWorld(u, w, id) && Elsewhere(u, w, side, id, 0) && !step.JoinStep?
    ensures var (side', w') := SideStep(u, u.holderNetwork, side, w, step); Onward(u, w, w', id) && Elsewhere(u, w', side', id, 0)
  {
    match step
    case PumpStep(_, batch, luck) => ForeignPumps(u, side, w, batch, luck, id);
    case ConfirmStep(_, typed, luck) => ForeignConfirms(u, side, w, typed, luck, id);
    case CancelStep(_, luck) => EndsElsewhere(u, w, side, Cancelled, id, 0);
    case TickStep(_, now, luck) => EndsElsewhere(u, w, side, Timeout, id, 0);
    case ClosedStep(_, reason, luck) => EndsElsewhere(u, w, side, Closed(reason), id, 0);
  }

  // ---- the joiner, while the holder is elsewhere ----

  /** The joiner waits in its channel, or ended; it holds no master and sent no join. */
  predicate Idle(u: Setup, s: Session) {
    && s.role == Joiner && s.master.None? && !s.joinSent && s.stage != Open && s.stage != Finished
    && (s.stage == Keyed ==> s.channel.Some? && s.channel.value.id == Cid(u))
  }

  predicate OfChannel(u: Setup, m: RelayMessage) {
    m.payload.Sealed? && m.payload.id == Cid(u)
  }

  lemma AcceptOneIdle(u: Setup, s: Session, m: RelayMessage)
    requires Idle(u, s) && !OfChannel(u, m)
    ensures var (s', r) := AcceptOne(u.env, s, m); Idle(u, s') && (r.Ok? ==> r == Ok(None))
  {
  }

  lemma {:induction false} AcceptIdle(u: Setup, s: Session, sorted: seq<RelayMessage>)
    requires Idle(u, s) && forall m :: m in sorted ==> !OfChannel(u, m)
    ensures var (s', r) := AcceptSorted(u.env, s, sorted); Idle(u, s') && (r.Ok? ==> r == Ok([]))
    decreases |sorted|
  {
    if sorted != [] {
      AcceptOneIdle(u, s, sorted[0]);
      var (s1, r1) := AcceptOne(u.env, s, sorted[0]);
      if r1.Ok? {
        AcceptIdle(u, s1, sorted[1..]);
        BeforeNothing(AcceptSorted(u.env, s1, sorted[1..]));
      }
    }
  }

  lemma IdlePumps(u: Setup, side: Side, w: World, batch: seq<RelayMessage>, luck: Luck)
    requires Idle(u, side.session) && forall m :: m in batch ==> !OfChannel(u, m)
    ensures var d := Pump(u.env, u.joinerNetwork, u.device, side, w, batch, luck); Idle(u, d.0.session) && d.1 == w
  {
    CatchUp.SortSorts(batch);
    AcceptIdle(u, side.session, SortBySeq(batch));
  }

  lemma IdleConfirms(u: Setup, side: Side, w: World, typed: string, luck: Luck)
    requires Idle(u, side.session)
    ensures var d := ConfirmCode(u.env, side, w, typed, luck);
      Idle(u, d.0.session) && d.1 == Note(w, Typed(Joiner, typed))
  {
  }

  lemma IdleStep(u: Setup, side: Side, w: World, step: Step, id: ChannelId)
    requires ForeignWorld(u, w, id) && Idle(u, side.session) && !step.JoinStep?
    requires step.PumpStep? ==> forall m :: m in step.batch ==> !OfChannel(u, m)
    ensures var (side', w') := SideStep(u, u.joinerNetwork, side, w, step);
      Onward(u, w, w', id) && Idle(u, side'.session) && w'.grant == w.grant
  {
    match step
    case PumpStep(_, batch, luck) => IdlePumps(u, side, w, batch, luck);
    case ConfirmStep(_, typed, luck) =>
      IdleConfirms(u, side, w, typed, luck);
      NoteOnward(u, w, Typed(Joiner, typed), id);
    case _ =>
  }
}
