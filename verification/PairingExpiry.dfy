/** The lifetime of a pairing, over whole runs: a session times out at a late tick, and at nothing else. */
module PairingExpiry {
  import opened Base
  import opened Devices
  import opened Grants
  import opened PairingTypes
  import opened PairingSpec
  import opened PairingDriver

  /** The session of one device; the joiner has none before it joins. */
  function SessionOf(sys: System, role: Role): Option<Session> {
    if role == Creator then Some(sys.holder.session) else sys.joiner
  }

  function StoreOf(sys: System, role: Role): Store {
    if role == Creator then sys.holder.store else sys.joinerStore
  }

  /** A tick of `role` that comes 300 seconds or more after `start`. */
  predicate LateTick(step: Step, role: Role, start: int) {
    step.TickStep? && step.role == role && step.now - start >= 300
  }

  /** The start stays, an end stays, and no timeout comes up. */
  ghost predicate Keeps(s: Session, s': Session) {
    && s'.startedAt == s.startedAt
    && (!s.Active() ==> s'.stage == s.stage)
    && (s'.stage == Ended(Timeout) ==> s.stage == Ended(Timeout))
  }

  // ---- one tick ----

  /**
   * After a tick a device is active exactly when it was active and is younger than 300 seconds. A tick that
   * ends it leaves it timed out without its keys, and empties its slot when the store works. Else nothing changes.
   */
  lemma TickMeans(u: Setup, sys: System, role: Role, now: int, luck: Luck)
    requires SessionOf(sys, role).Some?
    ensures var s := SessionOf(sys, role).value;
      var sys' := Next(u, sys, TickStep(role, now, luck));
      && SessionOf(sys', role).Some?
      && (SessionOf(sys', role).value.Active() <==> s.Active() && now - s.startedAt < 300)
      && sys'.world == sys.world && SessionOf(sys', Peer(role)) == SessionOf(sys, Peer(role))
      && StoreOf(sys', Peer(role)) == StoreOf(sys, Peer(role))
      && (!s.Active() || now - s.startedAt < 300 ==> sys' == sys)
      && (s.Active() && now - s.startedAt >= 300 ==>
            && SessionOf(sys', role).value == s.(stage := Ended(Timeout), waiting := None, channel := None)
            && StoreOf(sys', role) ==
                 if luck(0, ClearSlot) == Works then StoreOf(sys, role).(slot := None) else StoreOf(sys, role))
  {
  }

  // ---- everything else ----

  lemma TakeHelloKeeps(env: Env, s: Session, payload: Payload)
    requires s.stage == Open
    ensures Keeps(s, TakeHello(env, s, payload).0)
  {
  }

  lemma TakeOfferKeeps(s: Session, networks: seq<WireNetwork>)
    ensures Keeps(s, TakeOffer(s, networks).0)
  {
  }

  lemma TakeAnswerKeeps(s: Session, joined: seq<WireJoined>, signed: seq<WireSigned>)
    ensures Keeps(s, TakeJoin(s, joined).0) && Keeps(s, TakeSigned(s, signed).0)
  {
  }

  lemma TakePlainKeeps(s: Session, plain: Plain)
    ensures Keeps(s, TakePlain(s, plain).0)
  {
    match (s.role, ReadWire(plain))
    case (Joiner, Some(Offer(_, networks, _))) => TakeOfferKeeps(s, networks);
    case (Creator, Some(Join(_, joined, _))) => TakeAnswerKeeps(s, joined, []);
    case (Joiner, Some(Signed(_, signed, _))) => TakeAnswerKeeps(s, [], signed);
    case _ =>
  }

  lemma TakeSealedKeeps(s: Session, payload: Payload)
    ensures Keeps(s, TakeSealed(s, payload).0)
  {
    if s.channel.Some? && payload.Sealed? {
      TakePlainKeeps(Opened(s), payload.plain);
    }
  }

  lemma AcceptOneKeeps(env: Env, s: Session, m: RelayMessage)
    ensures Keeps(s, AcceptOne(env, s, m).0)
  {
    var counted := Counted(env, s, m);
    match s.stage
    case Open => TakeHelloKeeps(env, counted, m.payload);
    case Keyed => TakeSealedKeeps(counted, m.payload);
    case _ =>
  }

  lemma {:induction false} AcceptSortedKeeps(env: Env, s: Session, sorted: seq<RelayMessage>)
    ensures Keeps(s, AcceptSorted(env, s, sorted).0)
    decreases |sorted|
  {
    if sorted != [] {
      AcceptOneKeeps(env, s, sorted[0]);
      AcceptSortedKeeps(env, AcceptOne(env, s, sorted[0]).0, sorted[1..]);
    }
  }

  lemma PostSealedKeeps(env: Env, side: Side, w: World, sealed: (Session, Result<Outgoing, FlowError>), luck: Luck, i: nat)
    requires Keeps(side.session, sealed.0)
    ensures Keeps(side.session, PostSealed(env, side, w, sealed, luck, i).0.session)
  {
  }

  lemma SendJoinKeeps(env: Env, side: Side, w: World, luck: Luck, i: nat)
    ensures Keeps(side.session, SendJoinIfReady(env, side, w, luck, i).0.session)
  {
  }

  lemma RefuseKeeps(env: Env, side: Side, w: World, reason: string, luck: Luck, i: nat)
    ensures Keeps(side.session, Refuse(env, side, w, reason, luck, i).0.session)
  {
  }

  lemma PutKeeps(env: Env, side: Side, w: World, grant: Grant, luck: Luck, i: nat)
    ensures Keeps(side.session, PutGrant(env, side, w, grant, luck, i).0.session)
  {
  }

  lemma GrantToKeeps(env: Env, side: Side, w: World, master: Account, list: SignedList, device: string, luck: Luck, i: nat)
    ensures Keeps(side.session, GrantTo(env, side, w, master, list, device, luck, i).0.session)
  {
    if device in list.keys {
      RefuseKeeps(env, side, w, "paired", luck, i);
    } else {
      match BuildGrant(master, list, device)
      case Err(ListFull) => RefuseKeeps(env, side, w, "full", luck, i);
      case Ok(grant) => PutKeeps(env, side, w, grant, luck, i);
      case _ =>
    }
  }

  lemma FinishCreatorKeeps(env: Env, side: Side, w: World, luck: Luck, i: nat)
    ensures Keeps(side.session, FinishCreator(env, side, w, luck, i).0.session)
  {
    RefuseKeeps(env, side, w, "failed", luck, i);
    if ConfirmedDevice(side.session).Some? && side.store.master.Some? && side.store.list.Some? {
      GrantToKeeps(env, side, w, side.store.master.value, side.store.list.value,
        ConfirmedDevice(side.session).value.ed25519, luck, i);
    }
  }

  lemma FinishJoinerKeeps(env: Env, spare: Account, side: Side, w: World, grant: Grant, luck: Luck, i: nat)
    ensures Keeps(side.session, FinishJoiner(env, spare, side, w, grant, luck, i).0.session)
  {
    var (store, r) := AccountOf(side.store, spare, luck, i);
    if r.Ok? {
      var after := side.(store := ApplyGrant(store, r.value.ed25519, grant, AccessOf(luck, i)).0);
      FinishKeptKeeps(env, after, NoteKept(w, store, r.value.ed25519, grant, AccessOf(luck, i)), luck, i);
    }
  }

  lemma FinishKeptKeeps(env: Env, side: Side, w: World, luck: Luck, i: nat)
    ensures Keeps(side.session, FinishKept(env, side, w, luck, i).0.session)
  {
    PostSealedKeeps(env, side, w, SealDone(env, side.session), luck, i);
  }

  lemma HandleKeeps(env: Env, network: string, spare: Account, side: Side, w: World, e: FlowEvent, luck: Luck, i: nat)
    ensures Keeps(side.session, Handle(env, network, spare, side, w, e, luck, i).0.session)
  {
    match e
    case Offered => SendJoinKeeps(env, side, w, luck, i);
    case Joined => FinishCreatorKeeps(env, side, w, luck, i);
    case SignedAnswer(grant) => FinishJoinerKeeps(env, spare, side, w, grant, luck, i);
    case _ =>
  }

  lemma {:induction false} HandleAllKeeps(env: Env, network: string, spare: Account, side: Side, w: World,
                                          events: seq<FlowEvent>, luck: Luck, i: nat)
    ensures Keeps(side.session, HandleAll(env, network, spare, side, w, events, luck, i).0.session)
    decreases |events|
  {
    if events != [] {
      HandleKeeps(env, network, spare, side, w, events[0], luck, i);
      var d := Handle(env, network, spare, side, w, events[0], luck, i);
      HandleAllKeeps(env, network, spare, d.0, d.1, events[1..], luck, i + 1);
    }
  }

  lemma PumpKeeps(env: Env, network: string, spare: Account, side: Side, w: World, batch: seq<RelayMessage>, luck: Luck)
    ensures Keeps(side.session, Pump(env, network, spare, side, w, batch, luck).0.session)
  {
    AcceptSortedKeeps(env, side.session, SortBySeq(batch));
    var (s, r) := Accept(env, side.session, batch);
    if r.Ok? {
      HandleAllKeeps(env, network, spare, side.(session := s), w, r.value, luck, 1);
    }
  }

  lemma ConfirmKeeps(env: Env, side: Side, w: World, typed: string, luck: Luck)
    ensures Keeps(side.session, ConfirmCode(env, side, w, typed, luck).0.session)
  {
    var w0 := Note(w, Typed(side.session.role, typed));
    var (prepared, r) := PrepareHolder(side, luck);
    if r.Ok? {
      ConfirmPreparedKeeps(env, prepared, w0, typed, luck);
    }
  }

  lemma ConfirmPreparedKeeps(env: Env, side: Side, w: World, typed: string, luck: Luck)
    ensures Keeps(side.session, ConfirmPrepared(env, side, w, typed, luck).0.session)
  {
    var (s, r) := Confirm(env, side.session, typed);
    if r.Ok? {
      AfterConfirmKeeps(env, side.(session := s), w, r.value, luck);
    }
  }

  lemma AfterConfirmKeeps(env: Env, side: Side, w: World, sealed: Option<Outgoing>, luck: Luck)
    ensures Keeps(side.session, AfterConfirm(env, side, w, sealed, luck).0.session)
  {
    SendJoinKeeps(env, side, w, luck, 1);
    if sealed.Some? {
      SendJoinKeeps(env, side, Post(env, w, side.session.role, sealed.value, luck(0, PostMessage)).0, luck, 1);
    }
  }

  lemma OtherStepsKeep(u: Setup, network: string, side: Side, w: World, step: Step)
    requires !step.JoinStep? && !LateTick(step, step.role, side.session.startedAt)
    ensures Keeps(side.session, SideStep(u, network, side, w, step).0.session)
  {
    match step
    case PumpStep(_, batch, luck) => PumpKeeps(u.env, network, u.device, side, w, batch, luck);
    case ConfirmStep(_, typed, luck) => ConfirmKeeps(u.env, side, w, typed, luck);
    case _ =>
  }

  /** One step: a late tick of the device leaves it ended, and any other step keeps it. */
  lemma NextKeeps(u: Setup, sys: System, step: Step, role: Role)
    requires SessionOf(sys, role).Some?
    ensures var s, s' := SessionOf(sys, role).value, SessionOf(Next(u, sys, step), role);
      && s'.Some? && s'.value.startedAt == s.startedAt && (!s.Active() ==> s'.value.stage == s.stage)
      && (LateTick(step, role, s.startedAt) ==> !s'.value.Active())
      && (!LateTick(step, role, s.startedAt) ==> Keeps(s, s'.value))
  {
    if step.JoinStep? {
    } else if LateTick(step, role, SessionOf(sys, role).value.startedAt) {
      TickMeans(u, sys, role, step.now, step.luck);
    } else if step.role == role {
      if role == Creator {
        OtherStepsKeep(u, u.holderNetwork, sys.holder, sys.world, step);
      } else {
        OtherStepsKeep(u, u.joinerNetwork, Side(sys.joiner.value, sys.joinerStore), sys.world, step);
      }
    }
  }

  /**
   * The lifetime over any run from any state: a device is timed out only when one of its ticks came 300
   * seconds or more after its start, and after such a tick it is never active again.
   */
  lemma {:induction false} TimedOutMeans(u: Setup, first: System, steps: seq<Step>, last: System, role: Role)
    requires Run(u, first, steps, last) && SessionOf(first, role).Some?
    ensures var s := SessionOf(first, role).value;
      && SessionOf(last, role).Some? && SessionOf(last, role).value.startedAt == s.startedAt
      && (!s.Active() ==> SessionOf(last, role).value.stage == s.stage)
      && (SessionOf(last, role).value.stage == Ended(Timeout) ==>
            s.stage == Ended(Timeout) || exists i :: 0 <= i < |steps| && LateTick(steps[i], role, s.startedAt))
      && ((exists i :: 0 <= i < |steps| && LateTick(steps[i], role, s.startedAt)) ==> !SessionOf(last, role).value.Active())
    decreases |steps|
  {
    if steps != [] {
      var next := Next(u, first, steps[0]);
      NextKeeps(u, first, steps[0], role);
      TimedOutMeans(u, next, steps[1..], last, role);
      var start := SessionOf(first, role).value.startedAt;
      forall i | 0 <= i < |steps| - 1 && LateTick(steps[1..][i], role, start) ensures LateTick(steps[i + 1], role, start) {
      }
      forall i | 0 < i < |steps| && LateTick(steps[i], role, start) ensures LateTick(steps[1..][i - 1], role, start) {
      }
    }
  }
}
