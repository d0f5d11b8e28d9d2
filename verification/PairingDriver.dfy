/** The driver of a pairing: its steps over a session, its store and the relay, where every call may fail. */
module PairingDriver {
  import opened Base
  import opened Devices
  import opened Grants
  import opened PairingTypes
  import opened PairingSpec
  import M = ListMigration
  import W = Wire

  /** What becomes of a call: it works, it fails, or it takes effect and its answer is lost. */
  datatype Outcome = Works | Fails | AnswerLost

  datatype Call =
    | FetchMessages
    | PostMessage
    | PutList
    | JoinRendezvous
    | Provision
    | ReadMaster
    | ReadAccount
    | SaveAccount
    | SaveList
    | SaveCertificate
    | SaveSlot
    | ClearSlot

  /** The fate of every call of one driver step, by the event that the step handles. */
  type Luck = (nat, Call) -> Outcome

  datatype DriveError = Flow(error: FlowError) | CallFailed | RouteFailed | ProvisionFailed

  /** What happens, in its order. `Put` is the list of a grant on the server, `Kept` a list in a store. */
  datatype Happening =
    | Typed(role: Role, text: string)
    | Posted(role: Role, message: Message)
    | Put(grant: Grant)
    | Kept(role: Role, list: SignedList)
    | KeptCertificate(certificate: Certificate)
    | Finishes(role: Role)

  /** The relay log, the history, and the grant whose list the server took. */
  datatype World = World(relay: seq<RelayMessage>, history: seq<Happening>, grant: Option<Grant>)

  datatype Side = Side(session: Session, store: Store)

  type Driven = (Side, World, Result<(), DriveError>)

  function Note(w: World, h: Happening): World {
    w.(history := w.history + [h])
  }

  /** The message in a payload that a device made. */
  function MessageOf(p: Payload): Message {
    match p
    case Initial(_, _, Json(m), _) => m
    case Sealed(_, _, _, Json(m)) => m
    case _ => Hello(0)
  }

  function Append(w: World, role: Role, payload: Payload): World {
    Note(w.(relay := w.relay + [RelayMessage(|w.relay| + 1, role, payload)]), Posted(role, MessageOf(payload)))
  }

  /** Posts a sealed message: the client checks the limits again before the call. */
  function Post(env: Env, w: World, role: Role, out: Outgoing, outcome: Outcome): (World, Result<(), DriveError>) {
    if !W.PairingMessageFits(out.count, out.total, PayloadLen(env, out.payload)) then (w, Err(CallFailed))
    else match outcome
    case Works => (Append(w, role, out.payload), Ok(()))
    case Fails => (w, Err(CallFailed))
    case AnswerLost => (Append(w, role, out.payload), Err(CallFailed))
  }

  function Cleanup(side: Side, luck: Luck, i: nat): Side {
    if luck(i, ClearSlot) == Works then side.(store := side.store.(slot := None)) else side
  }

  function Abort(d: Driven, luck: Luck, i: nat): Driven {
    (Cleanup(d.0.(session := End(d.0.session, Failed)), luck, i), d.1, d.2)
  }

  function AbortOnError(d: Driven, luck: Luck, i: nat): Driven {
    if d.2.Err? then Abort(d, luck, i) else d
  }

  /** Posts what a step of the session sealed. */
  function PostSealed(env: Env, side: Side, w: World, sealed: (Session, Result<Outgoing, FlowError>), luck: Luck, i: nat): Driven {
    var after := side.(session := sealed.0);
    match sealed.1
    case Err(e) => (after, w, Err(Flow(e)))
    case Ok(out) =>
      var (w', r) := Post(env, w, side.session.role, out, luck(i, PostMessage));
      (after, w', r)
  }

  /** The account of a store; a store without one makes `spare` its own. */
  function AccountOf(store: Store, spare: Account, luck: Luck, i: nat): (Store, Result<Account, FlowError>) {
    if luck(i, ReadAccount) != Works then (store, Err(StoreFailed))
    else match store.account
    case Some(account) => (store, Ok(account))
    case None =>
      if luck(i, SaveAccount) != Works then (store, Err(StoreFailed)) else (store.(account := Some(spare)), Ok(spare))
  }

  function SendJoinIfReady(env: Env, side: Side, w: World, luck: Luck, i: nat): Driven {
    if !JoinReady(side.session) then (side, w, Ok(()))
    else if luck(i, ReadAccount) != Works then (side, w, Err(Flow(StoreFailed)))
    else if side.store.account.None? then (side, w, Err(Flow(NoIdentity)))
    else
      var account, master := side.store.account.value, side.session.master.value;
      var signature := Sign(account, W.IdText(account.curve25519, master));
      PostSealed(env, side, w, SealJoin(env, side.session, signature), luck, i)
  }

  function Refuse(env: Env, side: Side, w: World, reason: string, luck: Luck, i: nat): Driven {
    var d := PostSealed(env, side, w, SealRefusal(env, side.session, reason), luck, i);
    if d.2.Ok? then (Cleanup(d.0, luck, i), d.1, d.2) else d
  }

  /** The answer with the grant, once the server took its list: the list is kept first. */
  function AnswerGrant(env: Env, side: Side, w: World, grant: Grant, luck: Luck, i: nat): Driven {
    if luck(i, SaveList) != Works then (side, w, Err(Flow(StoreFailed)))
    else
      var kept := side.(store := side.store.(list := Some(grant.list)));
      PostSealed(env, kept, Note(w, Kept(Creator, grant.list)), SealSigned(env, side.session, grant), luck, i)
  }

  function PutGrant(env: Env, side: Side, w: World, grant: Grant, luck: Luck, i: nat): Driven {
    var put := Note(w.(grant := Some(grant)), Put(grant));
    match luck(i, PutList)
    case Fails => (side, w, Err(RouteFailed))
    case AnswerLost => (side, put, Err(RouteFailed))
    case Works => AnswerGrant(env, side, put, grant, luck, i)
  }

  /** The holder publishes and keeps the list of its grant, then answers. */
  function PublishGrant(env: Env, side: Side, w: World, grant: Grant, luck: Luck, i: nat): Driven {
    if M.NewListRequest(grant.master, grant.list).Err? then (side, w, Err(RouteFailed))
    else PutGrant(env, side, w, grant, luck, i)
  }

  /** What the holder does for a device that signed for its master. */
  function GrantTo(env: Env, side: Side, w: World, master: Account, list: SignedList, device: string, luck: Luck, i: nat): Driven {
    if device in list.keys then Refuse(env, side, w, "paired", luck, i)
    else match BuildGrant(master, list, device)
    case Err(ListFull) => Refuse(env, side, w, "full", luck, i)
    case Err(e) => (side, w, Err(Flow(e)))
    case Ok(grant) => PublishGrant(env, side, w, grant, luck, i)
  }

  function FinishCreator(env: Env, side: Side, w: World, luck: Luck, i: nat): Driven {
    var device := ConfirmedDevice(side.session);
    if device.None? then (side, w, Err(Flow(NotConfirmed)))
    else if !PeerIdSignatureValid(side.session) then Refuse(env, side, w, "failed", luck, i)
    else if luck(i, ReadMaster) != Works then (side, w, Err(Flow(StoreFailed)))
    else if side.store.master.None? || side.store.list.None? then (side, w, Err(Flow(NoIdentity)))
    else GrantTo(env, side, w, side.store.master.value, side.store.list.value, device.value.ed25519, luck, i)
  }

  function AccessOf(luck: Luck, i: nat): Access {
    Access(luck(i, ReadMaster) == Works, luck(i, SaveList) == Works, luck(i, SaveCertificate) == Works)
  }

  /** What the store of the joiner keeps of a grant, for the history. */
  function NoteKept(w: World, store: Store, own: string, grant: Grant, access: Access): World {
    if CheckGrant(store, own, grant, access).Err? || !access.saveList then w
    else
      var w1 := Note(w, Kept(Joiner, grant.list));
      if access.saveCertificate then Note(w1, KeptCertificate(grant.certificate)) else w1
  }

  /** The joiner keeps the grant: the provision, `done` and the end. */
  function FinishKept(env: Env, side: Side, w: World, luck: Luck, i: nat): Driven {
    if luck(i, Provision) != Works then (side, w, Err(ProvisionFailed))
    else
      var d := PostSealed(env, side, w, SealDone(env, side.session), luck, i);
      if d.2.Err? then d
      else (Cleanup(d.0.(session := Finish(d.0.session)), luck, i), Note(d.1, Finishes(Joiner)), d.2)
  }

  function FinishJoiner(env: Env, spare: Account, side: Side, w: World, grant: Grant, luck: Luck, i: nat): Driven {
    match AccountOf(side.store, spare, luck, i)
    case (store, Err(e)) => (side.(store := store), w, Err(Flow(e)))
    case (store, Ok(own)) =>
      var (store', applied) := ApplyGrant(store, own.ed25519, grant, AccessOf(luck, i));
      var after := side.(store := store');
      var w' := NoteKept(w, store, own.ed25519, grant, AccessOf(luck, i));
      match applied
      case Err(e) => (after, w', Err(Flow(e)))
      case Ok(_) => FinishKept(env, after, w', luck, i)
  }

  /** One event of the session: what the driver does for it. */
  function Handle(env: Env, network: string, spare: Account, side: Side, w: World, e: FlowEvent, luck: Luck, i: nat): Driven {
    match e
    case CodeReady => (side, w, Ok(()))
    case Offered => if side.session.network != network then (side, w, Ok(())) else SendJoinIfReady(env, side, w, luck, i)
    case Joined => FinishCreator(env, side, w, luck, i)
    case SignedAnswer(grant) => FinishJoiner(env, spare, side, w, grant, luck, i)
    case Paired =>
      (Cleanup(side.(session := Finish(side.session)), luck, i), Note(w, Finishes(side.session.role)), Ok(()))
  }

  function HandleAll(env: Env, network: string, spare: Account, side: Side, w: World, events: seq<FlowEvent>, luck: Luck, i: nat): Driven
    decreases |events|
  {
    if events == [] then (side, w, Ok(()))
    else
      var d := Handle(env, network, spare, side, w, events[0], luck, i);
      if d.2.Err? then d else HandleAll(env, network, spare, d.0, d.1, events[1..], luck, i + 1)
  }

  /** The loop over the events, cut at event `k`. */
  lemma HandledSoFar(env: Env, network: string, spare: Account, side: Side, w: World, events: seq<FlowEvent>,
                     luck: Luck, first: nat, k: nat)
    requires k < |events|
    ensures var d := Handle(env, network, spare, side, w, events[k], luck, first + k);
      HandleAll(env, network, spare, side, w, events[k..], luck, first + k) ==
        if d.2.Err? then d else HandleAll(env, network, spare, d.0, d.1, events[k + 1..], luck, first + k + 1)
  {
    assert events[k..][0] == events[k] && events[k..][1..] == events[k + 1..];
  }

  lemma NoEventsLeft(env: Env, network: string, spare: Account, side: Side, w: World, events: seq<FlowEvent>,
                     luck: Luck, first: nat)
    ensures HandleAll(env, network, spare, side, w, events[|events|..], luck, first) == (side, w, Ok(()))
  {
  }

  lemma LastEvent(d: Driven, rest: Driven)
    requires d.2.Ok? ==> rest == (d.0, d.1, Ok(()))
    ensures (if d.2.Err? then d else rest) == d
  {
    match d.2
    case Ok(nothing) => assert nothing == ();
    case Err(_) =>
  }

  lemma OneEvent(env: Env, network: string, spare: Account, side: Side, w: World, e: FlowEvent, luck: Luck, first: nat)
    ensures HandleAll(env, network, spare, side, w, [e], luck, first) == Handle(env, network, spare, side, w, e, luck, first)
  {
    var d := Handle(env, network, spare, side, w, e, luck, first);
    var rest := HandleAll(env, network, spare, d.0, d.1, [e][1..], luck, first + 1);
    NoEventsLeft(env, network, spare, d.0, d.1, [e], luck, first + 1);
    LastEvent(d, rest);
  }

  /** Fetches messages, takes them in and handles their events; a failure ends the pairing. */
  function Pump(env: Env, network: string, spare: Account, side: Side, w: World, batch: seq<RelayMessage>, luck: Luck): Driven {
    if !side.session.Active() then (side, w, Err(Flow(NotActive)))
    else if luck(0, FetchMessages) != Works then Abort((side, w, Err(CallFailed)), luck, 0)
    else match Accept(env, side.session, batch)
    case (s, Err(e)) => Abort((side.(session := s), w, Err(Flow(e))), luck, 0)
    case (s, Ok(events)) => AbortOnError(HandleAll(env, network, spare, side.(session := s), w, events, luck, 1), luck, 0)
  }

  /** A holder without its master key in the session reads it from the store. */
  function PrepareHolder(side: Side, luck: Luck): (Side, Result<(), FlowError>) {
    if side.session.role != Creator || side.session.master.Some? then (side, Ok(()))
    else if luck(0, ReadMaster) != Works then (side, Err(StoreFailed))
    else if side.store.master.None? then (side, Err(NoIdentity))
    else
      var (s, r) := SetMaster(side.session, side.store.master.value.ed25519);
      (side.(session := s), r)
  }

  /** The typed code, once the holder has its master key. */
  function ConfirmPrepared(env: Env, side: Side, w: World, typed: string, luck: Luck): Driven {
    match Confirm(env, side.session, typed)
    case (s, Err(CodeIsWrong)) => (Cleanup(side.(session := s), luck, 0), w, Err(Flow(CodeIsWrong)))
    case (s, Err(e)) => (side.(session := s), w, Err(Flow(e)))
    case (s, Ok(sealed)) => AbortOnError(AfterConfirm(env, side.(session := s), w, sealed, luck), luck, 0)
  }

  /** A code was typed: prepares the holder, then hands the code to the session. */
  function ConfirmCode(env: Env, side: Side, w: World, typed: string, luck: Luck): Driven {
    var w0 := Note(w, Typed(side.session.role, typed));
    match PrepareHolder(side, luck)
    case (prepared, Err(e)) => (prepared, w0, Err(Flow(e)))
    case (prepared, Ok(_)) => ConfirmPrepared(env, prepared, w0, typed, luck)
  }

  function AfterConfirm(env: Env, side: Side, w: World, sealed: Option<Outgoing>, luck: Luck): Driven {
    match sealed
    case None => SendJoinIfReady(env, side, w, luck, 1)
    case Some(out) =>
      match Post(env, w, side.session.role, out, luck(0, PostMessage))
      case (w', Err(e)) => (side, w', Err(e))
      case (w', Ok(_)) => SendJoinIfReady(env, side, w', luck, 1)
  }

  function Cancel(side: Side, luck: Luck): Side {
    Cleanup(side.(session := End(side.session, Cancelled)), luck, 0)
  }

  function Tick(side: Side, now: int, luck: Luck): Side {
    match Expire(side.session, now)
    case (s, true) => Cleanup(side.(session := s), luck, 0)
    case (_, false) => side
  }

  function ClosedPush(side: Side, reason: ClosedReason, luck: Luck): Side {
    Cleanup(side.(session := End(side.session, Closed(reason))), luck, 0)
  }

  // ---- the two devices ----

  /** What does not change during one pairing. */
  datatype Setup = Setup(
    env: Env,
    rendezvousId: string,
    holderNetwork: string,
    joinerNetwork: string,
    eligible: seq<string>,
    holderKey: string,
    joinerKey: string,
    std: bool,
    master: Option<Account>,
    list: Option<SignedList>,
    device: Account)

  datatype System = System(holder: Side, joiner: Option<Session>, joinerStore: Store, world: World)

  /** The holder opened the rendezvous; the joiner is not there yet. */
  ghost predicate StartState(setup: Setup, sys: System) {
    && (exists now ::
          && Create(Creator, setup.rendezvousId, setup.holderNetwork, setup.holderKey, now).Ok?
          && sys.holder.session == Create(Creator, setup.rendezvousId, setup.holderNetwork, setup.holderKey, now).value.0)
    && sys.holder.store.slot == Some(PendingOf(sys.holder.session))
    && sys.holder.store.master == setup.master && sys.holder.store.list == setup.list
    && sys.joiner.None? && sys.joinerStore.slot.None?
    && (sys.joinerStore.account.Some? ==> sys.joinerStore.account.value == setup.device)
    && sys.world == World([], [], None)
  }

  function PendingOf(s: Session): Pending {
    Pending(s.role, s.rendezvousId, s.startedAt)
  }

  datatype Step =
    | JoinStep(now: int, luck: Luck)
    | PumpStep(role: Role, batch: seq<RelayMessage>, luck: Luck)
    | ConfirmStep(role: Role, typed: string, luck: Luck)
    | CancelStep(role: Role, luck: Luck)
    | TickStep(role: Role, now: int, luck: Luck)
    | ClosedStep(role: Role, reason: ClosedReason, luck: Luck)

  /** The relay serves messages of its log only, in any order, any of them missing or repeated. */
  predicate Enabled(sys: System, step: Step) {
    step.PumpStep? ==> forall m :: m in step.batch ==> m in sys.world.relay
  }

  /** The joiner reads the link, joins and posts the first message. A failed attempt leaves an ended session. */
  function StartJoiner(setup: Setup, sys: System, now: int, luck: Luck): System {
    match AccountOf(sys.joinerStore, setup.device, luck, 0)
    case (store, Err(_)) => sys.(joinerStore := store)
    case (store, Ok(account)) =>
      if luck(0, JoinRendezvous) != Works then sys.(joinerStore := store)
      else match JoinAny(setup.env, PairingLink(setup.rendezvousId, setup.holderKey), Joiner, setup.rendezvousId,
                         setup.joinerNetwork, setup.eligible, DeviceOf(account), setup.joinerKey, setup.std, now)
      case Err(_) => sys.(joinerStore := store)
      case Ok((s, hello)) =>
        if luck(0, SaveSlot) != Works then
          var side := Cleanup(Side(End(s, Failed), store), luck, 0);
          sys.(joiner := Some(side.session), joinerStore := side.store)
        else
          var (w, r) := Post(setup.env, sys.world, Joiner, hello, luck(0, PostMessage));
          var d := AbortOnError((Side(s, store.(slot := Some(PendingOf(s)))), w, r), luck, 1);
          sys.(joiner := Some(d.0.session), joinerStore := d.0.store, world := d.1)
  }

  function SideStep(setup: Setup, network: string, side: Side, w: World, step: Step): (Side, World)
    requires !step.JoinStep?
  {
    match step
    case PumpStep(_, batch, luck) => var d := Pump(setup.env, network, setup.device, side, w, batch, luck); (d.0, d.1)
    case ConfirmStep(_, typed, luck) => var d := ConfirmCode(setup.env, side, w, typed, luck); (d.0, d.1)
    case CancelStep(_, luck) => (Cancel(side, luck), w)
    case TickStep(_, now, luck) => (Tick(side, now, luck), w)
    case ClosedStep(_, reason, luck) => (ClosedPush(side, reason, luck), w)
  }

  function Next(setup: Setup, sys: System, step: Step): System {
    if step.JoinStep? then
      if sys.joiner.None? then StartJoiner(setup, sys, step.now, step.luck) else sys
    else if step.role == Creator then
      var (side, w) := SideStep(setup, setup.holderNetwork, sys.holder, sys.world, step);
      sys.(holder := side, world := w)
    else if sys.joiner.None? then sys
    else
      var (side, w) := SideStep(setup, setup.joinerNetwork, Side(sys.joiner.value, sys.joinerStore), sys.world, step);
      sys.(joiner := Some(side.session), joinerStore := side.store, world := w)
  }

  /** The states that steps lead to from an initial one. */
  ghost predicate Run(setup: Setup, first: System, steps: seq<Step>, last: System)
    decreases |steps|
  {
    if steps == [] then first == last
    else Enabled(first, steps[0]) && Run(setup, Next(setup, first, steps[0]), steps[1..], last)
  }

  ghost predicate Reachable(setup: Setup, sys: System) {
    exists first, steps :: StartState(setup, first) && Run(setup, first, steps, sys)
  }
}
