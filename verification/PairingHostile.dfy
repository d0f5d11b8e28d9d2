/** A pairing over a relay that may serve anything but what only the channel of the two devices can seal. */
module PairingHostile {
  import opened Base
  import opened Devices
  import opened Grants
  import opened PairingTypes
  import opened PairingSpec
  import opened PairingDriver
  import opened PairingHistory
  import opened PairingElsewhere
  import A = PairingAgreement
  import CatchUp = PairingCatchUp
  import H = PairingHolder
  import J = PairingJoiner
  import Laws = PairingLaws
  import Text
  import W = Wire

  /**
   * What a hostile relay may serve: any initial message, any message of any other channel, any other text,
   * with any sender and number. A message of the channel of the two devices it can only repeat.
   */
  predicate Servable(u: Setup, w: World, p: Payload) {
    p.Sealed? && p.id == Cid(u) ==> exists m :: m in w.relay && m.payload == p
  }

  predicate HostileEnabled(u: Setup, sys: System, step: Step) {
    step.PumpStep? ==> forall m :: m in step.batch ==> Servable(u, sys.world, m.payload)
  }

  ghost predicate HostileRun(u: Setup, first: System, steps: seq<Step>, last: System)
    decreases |steps|
  {
    if steps == [] then first == last
    else HostileEnabled(u, first, steps[0]) && HostileRun(u, Next(u, first, steps[0]), steps[1..], last)
  }

  ghost predicate HostileReachable(u: Setup, sys: System) {
    exists first, steps :: StartState(u, first) && HostileRun(u, first, steps, sys)
  }

  lemma ServableIsReadable(u: Setup, w: World, p: Payload)
    requires WorldOk(u, w) && Servable(u, w, p)
    ensures Readable(u, w, p)
  {
    if p.Sealed? && p.id == Cid(u) {
      var m :| m in w.relay && m.payload == p;
      assert MessageOk(u, w, m);
    }
  }

  // ---- a holder that was not reached yet ----

  /** The holder did nothing but type. */
  predicate Quiet(w: World) {
    forall e :: e in w.history ==> Doer(e) == Creator ==> e.Typed?
  }

  lemma QuietMeans(u: Setup, w: World, e: Happening)
    requires WorldOk(u, w) && Quiet(w) && e in w.history
    ensures OnlyHello(e) && !e.Put?
  {
    var i :| 0 <= i < |w.history| && w.history[i] == e;
    assert Caused(u, w.history[..i], w.history[i]);
    assert forall x :: x in w.history[..i] ==> x in w.history;
    if e.Finishes? {
      assert Posted(Joiner, DoneMsg(u)) in w.history;
      NoDoneWhenQuiet(u, w);
    }
  }

  lemma NoDoneWhenQuiet(u: Setup, w: World)
    requires WorldOk(u, w) && Quiet(w)
    ensures Posted(Joiner, DoneMsg(u)) !in w.history
  {
    if Posted(Joiner, DoneMsg(u)) in w.history {
      var i :| 0 <= i < |w.history| && w.history[i] == Posted(Joiner, DoneMsg(u));
      var grant := CauseOfDone(u, w.history, i);
    }
  }

  lemma QuietRelay(u: Setup, w: World, m: RelayMessage, id: ChannelId)
    requires WorldOk(u, w) && Quiet(w) && m in w.relay
    ensures Apart(u, m, id)
  {
    assert MessageOk(u, w, m);
    var e := Posted(m.from, MessageOf(m.payload));
    QuietMeans(u, w, e);
  }

  /** A quiet world is in order for any other channel. */
  lemma QuietIsForeign(u: Setup, w: World, id: ChannelId)
    requires WorldOk(u, w) && Quiet(w)
    ensures ForeignWorld(u, w, id)
  {
    forall m | m in w.relay ensures Apart(u, m, id) {
      QuietRelay(u, w, m, id);
    }
    forall e | e in w.history ensures OnlyHello(e) {
      QuietMeans(u, w, e);
    }
    forall i | 0 <= i < |w.history| ensures Backed(u, w.history[..i], w.history[i], id) {
      QuietMeans(u, w, w.history[i]);
    }
  }

  lemma QuietHasNoGrant(u: Setup, w: World)
    requires WorldOk(u, w) && Quiet(w)
    ensures w.grant.None?
  {
    if w.grant.Some? {
      QuietMeans(u, w, Put(w.grant.value));
    }
  }

  lemma QuietIsIdle(u: Setup, w: World, side: Side)
    requires WorldOk(u, w) && Quiet(w) && J.JoinerOk(u, w, side)
    ensures Idle(u, side.session)
  {
    NoDoneWhenQuiet(u, w);
  }

  /** A holder that waits has its session in order, and did nothing but type. */
  ghost predicate Waits(u: Setup, w: World, s: Session) {
    s.stage == Open ==> Laws.WellFormed(u.env, s) && Quiet(w)
  }

  /** Somebody else's initial message opens another channel, or ends the session. */
  lemma ForeignHello(u: Setup, w: World, s: Session, m: RelayMessage)
    requires H.HolderSession(u, w, s, 0) && s.stage == Open && Laws.WellFormed(u.env, s)
    requires !FromJoiner(u, m.payload) && w.grant.None?
    ensures var (s', r) := AcceptOne(u.env, s, m);
      || (r.Err? && H.HolderSession(u, w, s', 0))
      || (r == Ok(None) && H.HolderSession(u, w, s', 0) && s'.stage == Open && Laws.WellFormed(u.env, s'))
      || (r == Ok(Some(CodeReady))
          && Holds(u, w, s', ChannelId(m.payload.creatorKey, m.payload.joinerKey)) && Answers(u, w, s', 0))
  {
    var seen := s.(lastSeq := m.seqno);
    H.HolderEnds(u, w, seen, BadMessage);
    if m.seqno > s.lastSeq && m.from == Joiner && PayloadLen(u.env, m.payload) <= W.PAIRING_MESSAGE_MAX_BYTES {
      var counted := Counted(u.env, s, m);
      H.HolderEnds(u, w, counted.(waiting := None), BadChannel);
      Laws.TakeHelloKeeps(u.env, counted, m.payload);
    }
  }

  /** A waiting holder that takes in one message of its own pairing still waits without an event, or has a channel. */
  lemma HomeHello(u: Setup, w: World, s: Session, m: RelayMessage)
    requires H.HolderSession(u, w, s, 0) && s.stage == Open && Laws.WellFormed(u.env, s)
    requires Readable(u, w, m.payload) && FromJoiner(u, m.payload)
    ensures var (s', r) := AcceptOne(u.env, s, m);
      match r
      case Err(_) => H.HolderSession(u, w, s', 0) && s'.stage != Open
      case Ok(None) => H.HolderSession(u, w, s', 0) && s'.stage == Open && Laws.WellFormed(u.env, s')
      case Ok(Some(e)) => e == CodeReady && H.HolderSession(u, w, s', 0) && s'.stage != Open
  {
    H.HolderAcceptsOne(u, w, s, m, 0);
    Laws.AcceptOneKeeps(u.env, s, m);
  }

  /** What comes of a batch for a waiting holder. */
  ghost predicate Reached(u: Setup, w: World, s: Session, r: Result<seq<FlowEvent>, FlowError>) {
    || (match r
        case Err(_) => H.HolderSession(u, w, s, 0) && s.stage != Open
        case Ok(events) =>
          && H.HolderSession(u, w, s, H.Joins(events)) && H.HolderEvents(u, w, events)
          && (s.stage == Open ==> events == [] && Laws.WellFormed(u.env, s)))
    || (exists id :: ReadThere(u, w, s, r, id, 0))
  }

  lemma ReadyBefore(u: Setup, w: World, rest: Accepted)
    requires H.HolderSession(u, w, rest.0, 0) || rest.1.Ok?
    requires rest.1.Err? ==> H.HolderSession(u, w, rest.0, 0) && rest.0.stage != Open
    requires rest.1.Ok? ==> H.HolderSession(u, w, rest.0, H.Joins(rest.1.value)) && H.HolderEvents(u, w, rest.1.value) && rest.0.stage != Open
    ensures Reached(u, w, Before([CodeReady], rest).0, Before([CodeReady], rest).1)
  {
    match rest.1
    case Ok(more) =>
      assert ([CodeReady] + more)[1..] == more;
      assert H.Joins([CodeReady] + more) == H.Joins(more);
      forall e | e in [CodeReady] + more ensures H.EventOk(u, w, e) && !e.SignedAnswer? {
        assert e == CodeReady || e in more;
      }
    case Err(_) =>
  }

  lemma {:induction false} NeverOpensInBatch(u: Setup, s: Session, sorted: seq<RelayMessage>)
    requires s.stage != Open
    ensures AcceptSorted(u.env, s, sorted).0.stage != Open
    decreases |sorted|
  {
    if sorted != [] {
      H.NeverOpensAgain(u, s, sorted[0]);
      if AcceptOne(u.env, s, sorted[0]).1.Ok? {
        NeverOpensInBatch(u, AcceptOne(u.env, s, sorted[0]).0, sorted[1..]);
      }
    }
  }

  lemma AfterHomeHello(u: Setup, w: World, s: Session, rest: seq<RelayMessage>)
    requires H.HolderSession(u, w, s, 0) && s.stage != Open
    requires forall m :: m in rest ==> Readable(u, w, m.payload)
    ensures var accepted := Before([CodeReady], AcceptSorted(u.env, s, rest)); Reached(u, w, accepted.0, accepted.1)
  {
    H.HolderAccepts(u, w, s, rest, 0);
    NeverOpensInBatch(u, s, rest);
    ReadyBefore(u, w, AcceptSorted(u.env, s, rest));
  }

  lemma AfterForeignHello(u: Setup, w: World, s: Session, rest: seq<RelayMessage>, id: ChannelId)
    requires Holds(u, w, s, id) && Answers(u, w, s, 0)
    ensures var accepted := Before([CodeReady], AcceptSorted(u.env, s, rest)); Reached(u, w, accepted.0, accepted.1)
  {
    AcceptElsewhere(u, w, s, rest, id, 0);
    ReadBefore(u, w, Some(CodeReady), AcceptSorted(u.env, s, rest), id, 0);
  }

  lemma {:induction false} WaitingAccepts(u: Setup, w: World, s: Session, sorted: seq<RelayMessage>)
    requires H.HolderSession(u, w, s, 0) && s.stage == Open && Laws.WellFormed(u.env, s) && w.grant.None?
    requires forall m :: m in sorted ==> Readable(u, w, m.payload)
    ensures var (s', r) := AcceptSorted(u.env, s, sorted); Reached(u, w, s', r)
    decreases |sorted|
  {
    if sorted != [] {
      var m := sorted[0];
      var (s1, r1) := AcceptOne(u.env, s, m);
      if FromJoiner(u, m.payload) {
        HomeHello(u, w, s, m);
      } else {
        ForeignHello(u, w, s, m);
      }
      match r1
      case Err(_) =>
      case Ok(None) =>
        WaitingAccepts(u, w, s1, sorted[1..]);
        BeforeNothing(AcceptSorted(u.env, s1, sorted[1..]));
      case Ok(Some(e)) =>
        if FromJoiner(u, m.payload) {
          AfterHomeHello(u, w, s1, sorted[1..]);
        } else {
          AfterForeignHello(u, w, s1, sorted[1..], ChannelId(m.payload.creatorKey, m.payload.joinerKey));
        }
    }
  }

  // ---- the steps of a holder on its own channel, or not reached yet ----

  /** What a step of an honest holder leads to: the joint invariant stays, or the channel is with somebody else. */
  ghost predicate HolderGoesOn(u: Setup, w: World, waited: bool, side: Side, w': World) {
    || (WorldOk(u, w') && Extends(w, w', Creator) && H.HolderOk(u, w', side) && Waits(u, w', side.session))
    || (waited && exists id :: Onward(u, w, w', id) && Elsewhere(u, w', side, id, 0))
  }

  /** Handling never opens a session again. */
  lemma {:induction false} HandlingStage(u: Setup, side: Side, w: World, events: seq<FlowEvent>, luck: Luck, i: nat)
    requires side.session.stage != Open
    ensures HandleAll(u.env, u.holderNetwork, u.device, side, w, events, luck, i).0.session.stage != Open
    decreases |events|
  {
    if events != [] {
      HandleStage(u, side, w, events[0], luck, i);
      var d := Handle(u.env, u.holderNetwork, u.device, side, w, events[0], luck, i);
      if d.2.Ok? {
        HandlingStage(u, d.0, d.1, events[1..], luck, i + 1);
      }
    }
  }

  lemma HandleStage(u: Setup, side: Side, w: World, e: FlowEvent, luck: Luck, i: nat)
    requires side.session.stage != Open
    ensures Handle(u.env, u.holderNetwork, u.device, side, w, e, luck, i).0.session.stage != Open
  {
    match e
    case Joined => CreatorStage(u, side, w, luck, i);
    case SignedAnswer(grant) => JoinerStage(u, side, w, grant, luck, i);
    case _ =>
  }

  lemma RefuseStage(u: Setup, side: Side, w: World, reason: string, luck: Luck, i: nat)
    requires side.session.stage != Open
    ensures Refuse(u.env, side, w, reason, luck, i).0.session.stage != Open
  {
  }

  lemma PutStage(u: Setup, side: Side, w: World, grant: Grant, luck: Luck, i: nat)
    requires side.session.stage != Open
    ensures PutGrant(u.env, side, w, grant, luck, i).0.session.stage != Open
  {
  }

  lemma GrantToStage(u: Setup, side: Side, w: World, master: Account, list: SignedList, device: string, luck: Luck, i: nat)
    requires side.session.stage != Open
    ensures GrantTo(u.env, side, w, master, list, device, luck, i).0.session.stage != Open
  {
    if device in list.keys {
      RefuseStage(u, side, w, "paired", luck, i);
    } else {
      match BuildGrant(master, list, device)
      case Err(ListFull) => RefuseStage(u, side, w, "full", luck, i);
      case Err(_) =>
      case Ok(grant) => PutStage(u, side, w, grant, luck, i);
    }
  }

  lemma CreatorStage(u: Setup, side: Side, w: World, luck: Luck, i: nat)
    requires side.session.stage != Open
    ensures FinishCreator(u.env, side, w, luck, i).0.session.stage != Open
  {
    RefuseStage(u, side, w, "failed", luck, i);
    var device := ConfirmedDevice(side.session);
    if device.Some? && side.store.master.Some? && side.store.list.Some? {
      GrantToStage(u, side, w, side.store.master.value, side.store.list.value, device.value.ed25519, luck, i);
    }
  }

  lemma JoinerStage(u: Setup, side: Side, w: World, grant: Grant, luck: Luck, i: nat)
    requires side.session.stage != Open
    ensures FinishJoiner(u.env, u.device, side, w, grant, luck, i).0.session.stage != Open
  {
    var (store, r) := AccountOf(side.store, u.device, luck, i);
    if r.Ok? {
      var after := side.(store := ApplyGrant(store, r.value.ed25519, grant, AccessOf(luck, i)).0);
      KeptStage(u, after, NoteKept(w, store, r.value.ed25519, grant, AccessOf(luck, i)), luck, i);
    }
  }

  lemma KeptStage(u: Setup, side: Side, w: World, luck: Luck, i: nat)
    requires side.session.stage != Open
    ensures FinishKept(u.env, side, w, luck, i).0.session.stage != Open
  {
  }

  lemma StillHome(u: Setup, w: World, d: Driven, luck: Luck)
    requires WorldOk(u, d.1) && Extends(w, d.1, Creator) && H.HolderOk(u, d.1, AbortOnError(d, luck, 0).0)
    requires d.0.session.stage != Open
    ensures HolderGoesOn(u, w, true, AbortOnError(d, luck, 0).0, d.1)
  {
  }

  /** After a fetch that reached a waiting holder. */
  lemma WaitingHandles(u: Setup, w: World, side: Side, s: Session, events: seq<FlowEvent>, luck: Luck)
    requires WorldOk(u, w) && Quiet(w) && H.HolderStore(u, w, side.store) && Reached(u, w, s, Ok(events))
    ensures var d := AbortOnError(HandleAll(u.env, u.holderNetwork, u.device, side.(session := s), w, events, luck, 1), luck, 0);
      HolderGoesOn(u, w, true, d.0, d.1)
  {
    var read := side.(session := s);
    QuietHasNoGrant(u, w);
    if id :| ReadThere(u, w, s, Ok(events), id, 0) {
      QuietIsForeign(u, w, id);
      PumpElsewhere(u, read, w, events, luck, id);
    } else if s.stage != Open {
      H.HolderHandlesBatch(u, w, read, events, luck);
      HandlingStage(u, read, w, events, luck, 1);
      StillHome(u, w, HandleAll(u.env, u.holderNetwork, u.device, read, w, events, luck, 1), luck);
    }
  }

  lemma WaitingFails(u: Setup, w: World, side: Side, s: Session, e: FlowError, luck: Luck)
    requires WorldOk(u, w) && Quiet(w) && H.HolderStore(u, w, side.store) && Reached(u, w, s, Err(e))
    ensures var d := Abort((side.(session := s), w, Err(Flow(e))), luck, 0); HolderGoesOn(u, w, true, d.0, d.1)
  {
    QuietHasNoGrant(u, w);
    if id :| ReadThere(u, w, s, Err(e), id, 0) {
      QuietIsForeign(u, w, id);
      AbortElsewhere(u, side.(session := s), w, Flow(e), luck, id);
    } else {
      H.HolderEnds(u, w, s, Failed);
    }
  }

  lemma WaitingPumps(u: Setup, w: World, side: Side, batch: seq<RelayMessage>, luck: Luck)
    requires WorldOk(u, w) && H.HolderOk(u, w, side) && side.session.stage == Open && Waits(u, w, side.session)
    requires forall m :: m in batch ==> Readable(u, w, m.payload)
    ensures var d := Pump(u.env, u.holderNetwork, u.device, side, w, batch, luck); HolderGoesOn(u, w, true, d.0, d.1)
  {
    if luck(0, FetchMessages) != Works {
      H.HolderEnds(u, w, side.session, Failed);
    } else {
      CatchUp.SortSorts(batch);
      QuietHasNoGrant(u, w);
      WaitingAccepts(u, w, side.session, SortBySeq(batch));
      match Accept(u.env, side.session, batch)
      case (s, Err(e)) => WaitingFails(u, w, side, s, e, luck);
      case (s, Ok(events)) => WaitingHandles(u, w, side, s, events, luck);
    }
  }

  lemma PumpStage(u: Setup, side: Side, w: World, batch: seq<RelayMessage>, luck: Luck)
    requires side.session.stage != Open
    ensures Pump(u.env, u.holderNetwork, u.device, side, w, batch, luck).0.session.stage != Open
  {
    if side.session.Active() && luck(0, FetchMessages) == Works {
      NeverOpensInBatch(u, side.session, SortBySeq(batch));
      match Accept(u.env, side.session, batch)
      case (s, Ok(events)) => HandlingStage(u, side.(session := s), w, events, luck, 1);
      case (_, Err(_)) =>
    }
  }

  lemma ConfirmStage(u: Setup, side: Side, w: World, typed: string, luck: Luck)
    requires side.session.stage != Open && side.session.role == Creator
    ensures ConfirmCode(u.env, side, w, typed, luck).0.session.stage != Open
  {
    match PrepareHolder(side, luck)
    case (prepared, Ok(_)) => ConfirmPreparedStage(u, prepared, Note(w, Typed(Creator, typed)), typed, luck);
    case (_, Err(_)) =>
  }

  lemma ConfirmPreparedStage(u: Setup, side: Side, w: World, typed: string, luck: Luck)
    requires side.session.stage != Open && side.session.role == Creator
    ensures ConfirmPrepared(u.env, side, w, typed, luck).0.session.stage != Open
  {
  }

  /** A code typed before there is a channel changes no more than the master. */
  lemma WaitingConfirms(u: Setup, w: World, side: Side, typed: string, luck: Luck)
    requires H.HolderOk(u, w, side) && side.session.stage == Open && Waits(u, w, side.session)
    ensures var d := ConfirmCode(u.env, side, w, typed, luck);
      d.1 == Note(w, Typed(Creator, typed)) && Waits(u, d.1, d.0.session)
  {
  }

  lemma HonestHolderStep(u: Setup, w: World, side: Side, step: Step)
    requires WorldOk(u, w) && H.HolderOk(u, w, side) && Waits(u, w, side.session) && !step.JoinStep?
    requires step.PumpStep? ==> forall m :: m in step.batch ==> Readable(u, w, m.payload)
    ensures var (side', w') := SideStep(u, u.holderNetwork, side, w, step); HolderGoesOn(u, w, side.session.stage == Open, side', w')
  {
    if step.PumpStep? && side.session.stage == Open {
      WaitingPumps(u, w, side, step.batch, step.luck);
    } else {
      H.HolderStep(u, w, side, step);
      match step
      case PumpStep(_, batch, luck) => PumpStage(u, side, w, batch, luck);
      case ConfirmStep(_, typed, luck) =>
        if side.session.stage == Open {
          WaitingConfirms(u, w, side, typed, luck);
        } else {
          ConfirmStage(u, side, w, typed, luck);
        }
      case _ =>
    }
  }

  // ---- both devices ----

  ghost predicate Honest(u: Setup, sys: System) {
    A.SystemOk(u, sys) && Waits(u, sys.world, sys.holder.session)
  }

  /** The channel of the holder is with somebody else; the joiner got nowhere. */
  ghost predicate Foreign(u: Setup, sys: System, id: ChannelId) {
    && ForeignWorld(u, sys.world, id) && Elsewhere(u, sys.world, sys.holder, id, 0)
    && (sys.joiner.Some? ==> Idle(u, sys.joiner.value))
  }

  ghost predicate HostileOk(u: Setup, sys: System) {
    Honest(u, sys) || exists id :: Foreign(u, sys, id)
  }

  lemma StartIsHonest(u: Setup, sys: System)
    requires StartState(u, sys)
    ensures Honest(u, sys)
  {
    A.InitialOk(u, sys);
  }

  lemma JoinStaysHonest(u: Setup, sys: System, now: int, luck: Luck)
    requires Honest(u, sys) && sys.joiner.None?
    ensures Honest(u, StartJoiner(u, sys, now, luck))
  {
    A.JoinStarts(u, sys, now, luck);
    JoinAddsHello(u, sys, now, luck);
  }

  /** All that a joiner adds when it starts is its hello. */
  lemma JoinAddsHello(u: Setup, sys: System, now: int, luck: Luck)
    requires sys.joiner.None?
    ensures var next := StartJoiner(u, sys, now, luck);
      && next.holder == sys.holder
      && (next.world == sys.world || next.world == Append(sys.world, Joiner, HelloPayload(u)))
      && (next.joiner.Some? ==> Idle(u, next.joiner.value))
  {
  }

  lemma JoinStaysForeign(u: Setup, sys: System, now: int, luck: Luck, id: ChannelId)
    requires Foreign(u, sys, id) && sys.joiner.None?
    ensures Foreign(u, StartJoiner(u, sys, now, luck), id)
  {
    JoinAddsHello(u, sys, now, luck);
    var next := StartJoiner(u, sys, now, luck);
    if next.world != sys.world {
      AppendOnward(u, sys.world, Joiner, HelloPayload(u), id);
      StaysElsewhere(u, sys.world, next.world, sys.holder, id, 0);
    }
  }

  /** The world was quiet when the channel went to somebody else. */
  lemma BecomesForeign(u: Setup, sys: System, side': Side, w': World, id: ChannelId)
    requires Honest(u, sys) && sys.holder.session.stage == Open
    requires Onward(u, sys.world, w', id) && Elsewhere(u, w', side', id, 0)
    ensures Foreign(u, sys.(holder := side', world := w'), id)
  {
    if sys.joiner.Some? {
      QuietIsIdle(u, sys.world, Side(sys.joiner.value, sys.joinerStore));
    }
  }

  lemma HonestHolderNext(u: Setup, sys: System, step: Step)
    requires Honest(u, sys) && HostileEnabled(u, sys, step) && !step.JoinStep? && step.role == Creator
    ensures HostileOk(u, Next(u, sys, step))
  {
    var w := sys.world;
    var (side', w') := SideStep(u, u.holderNetwork, sys.holder, w, step);
    BatchReadable(u, w, step);
    HonestHolderStep(u, w, sys.holder, step);
    if WorldOk(u, w') && Extends(w, w', Creator) && H.HolderOk(u, w', side') && Waits(u, w', side'.session) {
      StaysHonest(u, sys, side', w');
    } else {
      var id :| Onward(u, w, w', id) && Elsewhere(u, w', side', id, 0);
      BecomesForeign(u, sys, side', w', id);
    }
  }

  lemma StaysHonest(u: Setup, sys: System, side': Side, w': World)
    requires Honest(u, sys)
    requires WorldOk(u, w') && Extends(sys.world, w', Creator) && H.HolderOk(u, w', side') && Waits(u, w', side'.session)
    ensures Honest(u, sys.(holder := side', world := w'))
  {
    if sys.joiner.Some? {
      J.JoinerUntouched(u, sys.world, w', Side(sys.joiner.value, sys.joinerStore));
    }
  }

  lemma BatchReadable(u: Setup, w: World, step: Step)
    requires WorldOk(u, w) && !step.JoinStep?
    requires step.PumpStep? ==> forall m :: m in step.batch ==> Servable(u, w, m.payload)
    ensures step.PumpStep? ==> forall m :: m in step.batch ==> Readable(u, w, m.payload)
  {
    if step.PumpStep? {
      forall m | m in step.batch ensures Readable(u, w, m.payload) {
        ServableIsReadable(u, w, m.payload);
      }
    }
  }

  lemma HonestJoinerNext(u: Setup, sys: System, step: Step)
    requires Honest(u, sys) && HostileEnabled(u, sys, step) && !step.JoinStep? && step.role == Joiner && sys.joiner.Some?
    ensures Honest(u, Next(u, sys, step))
  {
    var w, side := sys.world, Side(sys.joiner.value, sys.joinerStore);
    BatchReadable(u, w, step);
    J.JoinerStep(u, w, side, step);
    var w' := SideStep(u, u.joinerNetwork, side, w, step).1;
    H.HolderUntouched(u, w, w', sys.holder);
    QuietStays(w, w');
  }

  lemma QuietStays(w: World, w': World)
    requires Extends(w, w', Joiner)
    ensures Quiet(w) ==> Quiet(w')
  {
    if Quiet(w) {
      forall e | e in w'.history ensures Doer(e) == Creator ==> e.Typed? {
        assert e in w.history || Doer(e) == Joiner;
      }
    }
  }

  /** The relay has no message of the channel of the two devices to repeat. */
  lemma NothingServed(u: Setup, w: World, step: Step, id: ChannelId)
    requires AllApart(u, w.relay, id) && id != Cid(u)
    requires step.PumpStep? ==> forall m :: m in step.batch ==> Servable(u, w, m.payload)
    ensures step.PumpStep? ==> forall m :: m in step.batch ==> !OfChannel(u, m)
  {
    if step.PumpStep? {
      forall m | m in step.batch ensures !OfChannel(u, m) {
        assert Servable(u, w, m.payload);
        assert forall served :: served in w.relay ==> Apart(u, served, id);
      }
    }
  }

  lemma ForeignNext(u: Setup, sys: System, step: Step, id: ChannelId)
    requires Foreign(u, sys, id) && HostileEnabled(u, sys, step)
    ensures Foreign(u, Next(u, sys, step), id)
  {
    if step.JoinStep? {
      if sys.joiner.None? {
        JoinStaysForeign(u, sys, step.now, step.luck, id);
      }
    } else if step.role == Creator {
      ForeignStep(u, sys.holder, sys.world, step, id);
    } else if sys.joiner.Some? {
      var side := Side(sys.joiner.value, sys.joinerStore);
      NothingServed(u, sys.world, step, id);
      IdleStep(u, side, sys.world, step, id);
      StaysElsewhere(u, sys.world, SideStep(u, u.joinerNetwork, side, sys.world, step).1, sys.holder, id, 0);
    }
  }

  lemma HostileNext(u: Setup, sys: System, step: Step)
    requires HostileOk(u, sys) && HostileEnabled(u, sys, step)
    ensures HostileOk(u, Next(u, sys, step))
  {
    if Honest(u, sys) {
      if step.JoinStep? {
        if sys.joiner.None? {
          JoinStaysHonest(u, sys, step.now, step.luck);
        }
      } else if step.role == Creator {
        HonestHolderNext(u, sys, step);
      } else if sys.joiner.Some? {
        HonestJoinerNext(u, sys, step);
      }
    } else {
      var id :| Foreign(u, sys, id);
      ForeignNext(u, sys, step, id);
    }
  }

  lemma {:induction false} HostileRunOk(u: Setup, first: System, steps: seq<Step>, last: System)
    requires HostileOk(u, first) && HostileRun(u, first, steps, last)
    ensures HostileOk(u, last)
    decreases |steps|
  {
    if steps != [] {
      HostileNext(u, first, steps[0]);
      HostileRunOk(u, Next(u, first, steps[0]), steps[1..], last);
    }
  }

  lemma HostileReachableOk(u: Setup, sys: System)
    requires HostileReachable(u, sys)
    ensures HostileOk(u, sys)
  {
    var first, steps :| StartState(u, first) && HostileRun(u, first, steps, sys);
    StartIsHonest(u, first);
    HostileRunOk(u, first, steps, sys);
  }

  // ---- the theorems ----

  /**
   * The holder holds a channel with somebody else, its user typed the code of that channel before, and the
   * joiner said no more than hello. The grant, if any, is from the own list of the holder for the device that it
   * read there, with an id signature over its master that verifies.
   */
  ghost predicate TypedElsewhere(u: Setup, sys: System, before: seq<Happening>, grant: Option<Grant>) {
    var s := sys.holder.session;
    && s.code.Some? && TypedCode(before, s.code.value)
    && (exists id :: id != Cid(u) && s.code == Some(u.env.code(id)))
    && JoinerIdle(sys.world.history)
    && (grant.Some? ==> GrantToPeer(u, s, grant.value))
  }

  /**
   * Every list that is put over a hostile relay is backed. Either the channel is the one of the two devices:
   * then the grant is for the device that joins, both users typed the code, the offer went out and a join came in
   * that this device signed for the master, all before. Or the holder is elsewhere, with all that
   * `TypedElsewhere` says of this grant.
   */
  lemma PutIsBacked(u: Setup, sys: System, i: nat)
    requires HostileReachable(u, sys) && i < |sys.world.history| && sys.world.history[i].Put?
    ensures var before, grant := sys.world.history[..i], sys.world.history[i].grant;
      (A.BothConfirmed(u, before) && HolderGrant(u, grant)) || TypedElsewhere(u, sys, before, Some(grant))
  {
    HostileReachableOk(u, sys);
    var h := sys.world.history;
    if Honest(u, sys) {
      A.JoinedBefore(u, h, i);
      CauseOfPut(u, h, i);
    } else {
      var id :| Foreign(u, sys, id);
      assert Backed(u, h[..i], h[i], id);
      assert Put(h[i].grant) in h;
    }
  }

  /** In one pairing the server takes the list of one grant only, whatever the relay serves. */
  lemma OneListPut(u: Setup, sys: System, a: Grant, b: Grant)
    requires HostileReachable(u, sys) && Put(a) in sys.world.history && Put(b) in sys.world.history
    ensures a == b
  {
    HostileReachableOk(u, sys);
    if Honest(u, sys) {
      OnePut(u, sys.world.history, a, b);
    }
  }

  /** Every code typed on the holder is the one that the joiner shows, or none. */
  ghost predicate TypesWhatIsShown(u: Setup, history: seq<Happening>) {
    forall text :: Typed(Creator, text) in history ==>
      Text.ParseU8(Text.Trim(text)) == Some(Code(u)) || Text.ParseU8(Text.Trim(text)) == None
  }

  /**
   * The check code protects: when the user of the holder types only what the joiner shows, and the channel
   * that the holder holds has another code, no list is ever put and the holder is never done.
   */
  lemma OtherCodePutsNothing(u: Setup, sys: System)
    requires HostileReachable(u, sys) && TypesWhatIsShown(u, sys.world.history)
    requires sys.holder.session.code.Some? && sys.holder.session.code.value != Code(u)
    ensures (forall grant :: Put(grant) !in sys.world.history) && sys.holder.session.stage != Finished
  {
    HostileReachableOk(u, sys);
  }

  /**
   * Agreement over a hostile relay: when the joiner is done, both devices hold what the holder granted, and
   * all of it happened in the order of the protocol.
   */
  lemma HostileAgreement(u: Setup, sys: System)
    requires HostileReachable(u, sys) && sys.joiner.Some? && sys.joiner.value.stage == Finished
    ensures exists grant :: A.Agreed(u, sys, grant)
  {
    HostileReachableOk(u, sys);
    assert Honest(u, sys);
    A.DoneAgrees(u, sys);
  }

  lemma AgreedIsDone(u: Setup, sys: System, grant: Grant)
    requires A.Agreed(u, sys, grant)
    ensures !JoinerIdle(sys.world.history)
  {
    var h := sys.world.history;
    A.PartTold(u, h, |h|, grant, 8, 8);
    assert !OnlyHello(Posted(Joiner, DoneMsg(u)));
  }

  /**
   * What the end of the holder means over a hostile relay: exactly one of two things. Both devices agree, or the
   * holder is done with somebody else whose code its user typed. In that case nothing need have been put.
   */
  lemma HolderDoneMeans(u: Setup, sys: System)
    requires HostileReachable(u, sys) && sys.holder.session.stage == Finished
    ensures (exists grant :: A.Agreed(u, sys, grant)) <==> !TypedElsewhere(u, sys, sys.world.history, sys.world.grant)
  {
    HostileReachableOk(u, sys);
    if Honest(u, sys) {
      A.DoneAgrees(u, sys);
    }
    if grant :| A.Agreed(u, sys, grant) {
      AgreedIsDone(u, sys, grant);
    }
  }
}
