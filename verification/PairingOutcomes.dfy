/** What a driver step leaves behind for every fate of its calls: the session, the store, the relay and the answer. */
module PairingOutcomes {
  import opened Base
  import opened Devices
  import opened Grants
  import opened PairingTypes
  import opened PairingSpec
  import opened PairingDriver
  import opened PairingSteps
  import M = ListMigration
  import W = Wire

  // ---- posts and cleanup ----

  /** A side whose slot is emptied when the store works. */
  function Emptied(side: Side, works: bool): Side {
    if works then side.(store := side.store.(slot := None)) else side
  }

  /** The relay and the history with one more message of `role`. */
  function WithMessage(w: World, role: Role, payload: Payload, m: Message): World {
    World(w.relay + [RelayMessage(|w.relay| + 1, role, payload)], w.history + [Posted(role, m)], w.grant)
  }

  /** A side whose session failed: its keys are gone, its first end stays, and its slot is emptied. */
  function FailedSide(side: Side, works: bool): Side {
    Emptied(
      if side.session.Active() then side.(session := EndedFor(side.session, Failed))
      else side.(session := side.session.(waiting := None, channel := None)),
      works)
  }

  lemma CleanupMeans(d: Driven, luck: Luck, i: nat)
    ensures Cleanup(d.0, luck, i) == Emptied(d.0, luck(i, ClearSlot) == Works)
    ensures Abort(d, luck, i) == (FailedSide(d.0, luck(i, ClearSlot) == Works), d.1, d.2)
    ensures AbortOnError(d, luck, i) == if d.2.Err? then (FailedSide(d.0, luck(i, ClearSlot) == Works), d.1, d.2) else d
  {
  }

  /** A post that would not fit is not made; one whose answer is lost left its message at the relay. */
  lemma PostMeans(env: Env, w: World, role: Role, out: Outgoing, outcome: Outcome, m: Message)
    requires !out.payload.Other? && out.payload.plain == Json(m)
    ensures var size := PayloadLen(env, out.payload);
      var fits := size <= 16_384 && out.count < 64 && out.total + size <= 65_536;
      && (!fits || outcome == Fails ==> Post(env, w, role, out, outcome) == (w, Err(CallFailed)))
      && (fits && outcome == Works ==> Post(env, w, role, out, outcome) == (WithMessage(w, role, out.payload, m), Ok(())))
      && (fits && outcome == AnswerLost ==>
            Post(env, w, role, out, outcome) == (WithMessage(w, role, out.payload, m), Err(CallFailed)))
  {
  }

  /** A step that seals nothing tells why; one that seals keeps the counted session even when the post fails. */
  lemma PostSealedMeans(env: Env, side: Side, w: World, sealed: (Session, Result<Outgoing, FlowError>), luck: Luck, i: nat)
    ensures sealed.1.Err? ==>
      PostSealed(env, side, w, sealed, luck, i) == (Side(sealed.0, side.store), w, Err(Flow(sealed.1.error)))
    ensures sealed.1.Ok? ==>
      var (w', r) := Post(env, w, side.session.role, sealed.1.value, luck(i, PostMessage));
      PostSealed(env, side, w, sealed, luck, i) == (Side(sealed.0, side.store), w', r)
  {
  }

  /** The account of the store, or the new one, which must be saved first. */
  lemma AccountMeans(store: Store, spare: Account, luck: Luck, i: nat)
    ensures luck(i, ReadAccount) != Works ==> AccountOf(store, spare, luck, i) == (store, Err(StoreFailed))
    ensures luck(i, ReadAccount) == Works && store.account.Some? ==>
      AccountOf(store, spare, luck, i) == (store, Ok(store.account.value))
    ensures luck(i, ReadAccount) == Works && store.account.None? && luck(i, SaveAccount) != Works ==>
      AccountOf(store, spare, luck, i) == (store, Err(StoreFailed))
    ensures luck(i, ReadAccount) == Works && store.account.None? && luck(i, SaveAccount) == Works ==>
      AccountOf(store, spare, luck, i) == (store.(account := Some(spare)), Ok(spare))
  {
  }

  // ---- the joiner sends its join ----

  /** The id text over the offered master, signed by the device that the store holds. */
  function IdSignatureOf(account: Account, master: string): Signature {
    Sig(account.ed25519, "irc-e2e:v2:id:" + (account.curve25519 + ":" + master))
  }

  lemma SendJoinMeans(env: Env, side: Side, w: World, luck: Luck, i: nat)
    ensures var s := side.session;
      var ready := s.role == Joiner && s.stage == Keyed && s.ownConfirmed && s.master.Some? && !s.joinSent;
      var d := SendJoinIfReady(env, side, w, luck, i);
      && (!ready ==> d == (side, w, Ok(())))
      && (ready && luck(i, ReadAccount) != Works ==> d == (side, w, Err(Flow(StoreFailed))))
      && (ready && luck(i, ReadAccount) == Works && side.store.account.None? ==> d == (side, w, Err(Flow(NoIdentity))))
      && (ready && luck(i, ReadAccount) == Works && side.store.account.Some? ==>
            var signature := IdSignatureOf(side.store.account.value, s.master.value);
            d == PostSealed(env, side, w, SealJoin(env, s, signature), luck, i))
  {
  }

  // ---- the holder answers ----

  /** A refusal that goes out empties the slot; one that does not leaves it full. */
  lemma RefuseMeans(env: Env, side: Side, w: World, reason: string, luck: Luck, i: nat)
    ensures var d := PostSealed(env, side, w, SealRefusal(env, side.session, reason), luck, i);
      && (d.2.Err? ==> Refuse(env, side, w, reason, luck, i) == d)
      && (d.2.Ok? ==> Refuse(env, side, w, reason, luck, i) == (Emptied(d.0, luck(i, ClearSlot) == Works), d.1, Ok(())))
  {
  }

  /** Why the holder gives no grant before it looks at its list. */
  lemma HolderStops(env: Env, side: Side, w: World, luck: Luck, i: nat)
    ensures var d := FinishCreator(env, side, w, luck, i);
      var device := ConfirmedDevice(side.session);
      var read := device.Some? && PeerIdSignatureValid(side.session) && luck(i, ReadMaster) == Works;
      && (device.None? ==> d == (side, w, Err(Flow(NotConfirmed))))
      && (device.Some? && !PeerIdSignatureValid(side.session) ==> d == Refuse(env, side, w, "failed", luck, i))
      && (device.Some? && PeerIdSignatureValid(side.session) && luck(i, ReadMaster) != Works ==>
            d == (side, w, Err(Flow(StoreFailed))))
      && (read && (side.store.master.None? || side.store.list.None?) ==> d == (side, w, Err(Flow(NoIdentity))))
      && (read && side.store.master.Some? && side.store.list.Some? ==>
            d == GrantTo(env, side, w, side.store.master.value, side.store.list.value, device.value.ed25519, luck, i))
  {
  }

  /** A device of the list is told so, a full list is told, and a list that the holder did not sign stops it. */
  lemma GrantMeans(env: Env, side: Side, w: World, master: Account, list: SignedList, device: string, luck: Luck, i: nat)
    ensures var d := GrantTo(env, side, w, master, list, device, luck, i);
      var listed := device in list.keys;
      var good := W.IsKeyText(device)
        && VerifySignedList(list.version, list.keys, master.ed25519, list.signature).Ok?;
      var full := list.version == 2_147_483_647 || |list.keys| >= 3;
      && (listed ==> d == Refuse(env, side, w, "paired", luck, i))
      && (!listed && good && full ==> d == Refuse(env, side, w, "full", luck, i))
      && (!listed && !W.IsKeyText(device) ==> d == (side, w, Err(Flow(MessageIsBad))))
      && (!listed && W.IsKeyText(device) && !good ==> d == (side, w, Err(Flow(NoIdentity))))
      && (!listed && good && !full ==>
            BuildGrant(master, list, device).Ok?
            && d == Published(env, side, w, BuildGrant(master, list, device).value, luck, i))
  {
    NoGrantMeans(master, list, device);
    BuildGrantMeans(master, list, device);
    if device !in list.keys && BuildGrant(master, list, device).Ok? {
      PublishMeans(env, side, w, BuildGrant(master, list, device).value, luck, i);
    }
  }

  /**
   * A grant on its way out: the list goes to the server, then to the own store, then the answer is sealed and
   * posted. A step that fails undoes no step before it.
   */
  function Published(env: Env, side: Side, w: World, grant: Grant, luck: Luck, i: nat): Driven {
    var onServer := World(w.relay, w.history + [Put(grant)], Some(grant));
    var kept := Side(side.session, side.store.(list := Some(grant.list)));
    var inStore := World(w.relay, w.history + [Put(grant), Kept(Creator, grant.list)], Some(grant));
    if luck(i, PutList) == Fails then (side, w, Err(RouteFailed))
    else if luck(i, PutList) == AnswerLost then (side, onServer, Err(RouteFailed))
    else if luck(i, SaveList) != Works then (side, onServer, Err(Flow(StoreFailed)))
    else PostSealed(env, kept, inStore, SealSigned(env, side.session, grant), luck, i)
  }

  lemma PublishMeans(env: Env, side: Side, w: World, grant: Grant, luck: Luck, i: nat)
    ensures M.NewListRequest(grant.master, grant.list).Err? ==>
      PublishGrant(env, side, w, grant, luck, i) == (side, w, Err(RouteFailed))
    ensures M.NewListRequest(grant.master, grant.list).Ok? ==>
      PublishGrant(env, side, w, grant, luck, i) == Published(env, side, w, grant, luck, i)
  {
    assert w.history + [Put(grant)] + [Kept(Creator, grant.list)] == w.history + [Put(grant), Kept(Creator, grant.list)];
  }

  // ---- the joiner takes the grant ----

  /** What the joiner keeps of a grant stands in the history, the list before the certificate. */
  lemma NoteKeptMeans(w: World, store: Store, own: string, grant: Grant, access: Access)
    ensures var w' := NoteKept(w, store, own, grant, access);
      var good := CheckGrant(store, own, grant, access).Ok?;
      && w'.relay == w.relay && w'.grant == w.grant
      && (!good || !access.saveList ==> w'.history == w.history)
      && (good && access.saveList && !access.saveCertificate ==> w'.history == w.history + [Kept(Joiner, grant.list)])
      && (good && access.saveList && access.saveCertificate ==>
            w'.history == w.history + [Kept(Joiner, grant.list), KeptCertificate(grant.certificate)])
  {
    assert w.history + [Kept(Joiner, grant.list)] + [KeptCertificate(grant.certificate)] ==
           w.history + [Kept(Joiner, grant.list), KeptCertificate(grant.certificate)];
  }

  /** With the grant kept: the device is provisioned, `done` is posted, and only then the session is finished. */
  lemma FinishKeptMeans(env: Env, side: Side, w: World, luck: Luck, i: nat)
    ensures luck(i, Provision) != Works ==> FinishKept(env, side, w, luck, i) == (side, w, Err(ProvisionFailed))
    ensures luck(i, Provision) == Works ==>
      var d := PostSealed(env, side, w, SealDone(env, side.session), luck, i);
      var s := d.0.session;
      && (d.2.Err? ==> FinishKept(env, side, w, luck, i) == d)
      && (d.2.Ok? && s.Active() ==>
            FinishKept(env, side, w, luck, i) ==
              (Emptied(Side(s.(stage := Finished, waiting := None, channel := None), d.0.store), luck(i, ClearSlot) == Works),
               World(d.1.relay, d.1.history + [Finishes(Joiner)], d.1.grant), Ok(())))
  {
  }

  /** The grant is checked and saved for the account of the store. */
  lemma FinishJoinerMeans(env: Env, spare: Account, side: Side, w: World, grant: Grant, luck: Luck, i: nat)
    ensures var (store, r) := AccountOf(side.store, spare, luck, i);
      var access := Access(luck(i, ReadMaster) == Works, luck(i, SaveList) == Works, luck(i, SaveCertificate) == Works);
      var d := FinishJoiner(env, spare, side, w, grant, luck, i);
      && (r.Err? ==> d == (Side(side.session, store), w, Err(Flow(r.error))))
      && (r.Ok? ==>
            var (store', applied) := ApplyGrant(store, r.value.ed25519, grant, access);
            var w' := NoteKept(w, store, r.value.ed25519, grant, access);
            && (applied.Err? ==> d == (Side(side.session, store'), w', Err(Flow(applied.error))))
            && (applied.Ok? ==> d == FinishKept(env, Side(side.session, store'), w', luck, i)))
  {
  }

  // ---- events and batches ----

  /** An offer that moved the joiner to another network than that of its store sends no join from there. */
  lemma HandleMeans(env: Env, network: string, spare: Account, side: Side, w: World, grant: Grant, luck: Luck, i: nat)
    requires side.session.Active()
    ensures Handle(env, network, spare, side, w, CodeReady, luck, i) == (side, w, Ok(()))
    ensures side.session.network != network ==> Handle(env, network, spare, side, w, Offered, luck, i) == (side, w, Ok(()))
    ensures side.session.network == network ==>
      Handle(env, network, spare, side, w, Offered, luck, i) == SendJoinIfReady(env, side, w, luck, i)
    ensures Handle(env, network, spare, side, w, Joined, luck, i) == FinishCreator(env, side, w, luck, i)
    ensures Handle(env, network, spare, side, w, SignedAnswer(grant), luck, i) == FinishJoiner(env, spare, side, w, grant, luck, i)
    ensures Handle(env, network, spare, side, w, Paired, luck, i) ==
      (Emptied(Side(side.session.(stage := Finished, waiting := None, channel := None), side.store), luck(i, ClearSlot) == Works),
       World(w.relay, w.history + [Finishes(side.session.role)], w.grant), Ok(()))
  {
  }

  /** Any failure of a batch, of its fetch, its messages or its events, fails the pairing; an ended one reads nothing. */
  lemma PumpMeans(env: Env, network: string, spare: Account, side: Side, w: World, batch: seq<RelayMessage>, luck: Luck)
    ensures var d := Pump(env, network, spare, side, w, batch, luck);
      var clears := luck(0, ClearSlot) == Works;
      var (s, r) := Accept(env, side.session, batch);
      && (!side.session.Active() ==> d == (side, w, Err(Flow(NotActive))))
      && (side.session.Active() && luck(0, FetchMessages) != Works ==> d == (FailedSide(side, clears), w, Err(CallFailed)))
      && (side.session.Active() && luck(0, FetchMessages) == Works && r.Err? ==>
            d == (FailedSide(Side(s, side.store), clears), w, Err(Flow(r.error))))
      && (side.session.Active() && luck(0, FetchMessages) == Works && r.Ok? ==>
            var handled := HandleAll(env, network, spare, Side(s, side.store), w, r.value, luck, 1);
            && (handled.2.Ok? ==> d == handled)
            && (handled.2.Err? ==> d == (FailedSide(handled.0, clears), handled.1, handled.2)))
  {
    var (s, r) := Accept(env, side.session, batch);
    CleanupMeans((side, w, Err(CallFailed)), luck, 0);
    if r.Ok? {
      CleanupMeans(HandleAll(env, network, spare, Side(s, side.store), w, r.value, luck, 1), luck, 0);
    } else {
      CleanupMeans((Side(s, side.store), w, Err(Flow(r.error))), luck, 0);
    }
  }

  /** Events are handled in their order, up to the first that fails. */
  lemma HandleAllMeans(env: Env, network: string, spare: Account, side: Side, w: World, e: FlowEvent, more: seq<FlowEvent>,
                       luck: Luck, i: nat)
    ensures var d := Handle(env, network, spare, side, w, e, luck, i);
      && HandleAll(env, network, spare, side, w, [], luck, i) == (side, w, Ok(()))
      && (d.2.Err? ==> HandleAll(env, network, spare, side, w, [e] + more, luck, i) == d)
      && (d.2.Ok? ==>
            HandleAll(env, network, spare, side, w, [e] + more, luck, i) == HandleAll(env, network, spare, d.0, d.1, more, luck, i + 1))
  {
    assert ([e] + more)[1..] == more;
  }

  // ---- the typed code ----

  /** The holder reads its master once, before the code is looked at. A failure there leaves the pairing open. */
  lemma PrepareMeans(side: Side, luck: Luck)
    ensures var s := side.session;
      var needed := s.role == Creator && s.master.None?;
      && (!needed ==> PrepareHolder(side, luck) == (side, Ok(())))
      && (needed && luck(0, ReadMaster) != Works ==> PrepareHolder(side, luck) == (side, Err(StoreFailed)))
      && (needed && luck(0, ReadMaster) == Works && side.store.master.None? ==> PrepareHolder(side, luck) == (side, Err(NoIdentity)))
      && (needed && luck(0, ReadMaster) == Works && side.store.master.Some? ==>
            PrepareHolder(side, luck) == (Side(s.(master := Some(side.store.master.value.ed25519)), side.store), Ok(())))
  {
  }

  /**
   * A typed code stands in the history whatever comes of it. A wrong one empties the slot; any other failure of
   * the code leaves the side as the session has it; and a failure of the post or of the join fails the pairing.
   */
  lemma ConfirmCodeMeans(env: Env, side: Side, w: World, typed: string, luck: Luck)
    ensures var d := ConfirmCode(env, side, w, typed, luck);
      var w0 := World(w.relay, w.history + [Typed(side.session.role, typed)], w.grant);
      var clears := luck(0, ClearSlot) == Works;
      var (prepared, p) := PrepareHolder(side, luck);
      var (s, r) := Confirm(env, prepared.session, typed);
      && (p.Err? ==> d == (prepared, w0, Err(Flow(p.error))))
      && (p.Ok? && r == Err(CodeIsWrong) ==>
            d == (Emptied(Side(s, prepared.store), clears), w0, Err(Flow(CodeIsWrong))))
      && (p.Ok? && r.Err? && r != Err(CodeIsWrong) ==> d == (Side(s, prepared.store), w0, Err(Flow(r.error))))
      && (p.Ok? && r.Ok? ==>
            var after := AfterConfirm(env, Side(s, prepared.store), w0, r.value, luck);
            && (after.2.Ok? ==> d == after)
            && (after.2.Err? ==> d == (FailedSide(after.0, clears), after.1, after.2)))
  {
    var (prepared, p) := PrepareHolder(side, luck);
    var (s, r) := Confirm(env, prepared.session, typed);
    var w0 := World(w.relay, w.history + [Typed(side.session.role, typed)], w.grant);
    assert w0 == Note(w, Typed(side.session.role, typed));
    if r.Ok? {
      CleanupMeans(AfterConfirm(env, Side(s, prepared.store), w0, r.value, luck), luck, 0);
    }
  }

  /** The offer is posted first; the join follows when it is ready. */
  lemma AfterConfirmMeans(env: Env, side: Side, w: World, out: Outgoing, luck: Luck)
    ensures AfterConfirm(env, side, w, None, luck) == SendJoinIfReady(env, side, w, luck, 1)
    ensures var (w', r) := Post(env, w, side.session.role, out, luck(0, PostMessage));
      && (r.Err? ==> AfterConfirm(env, side, w, Some(out), luck) == (side, w', Err(r.error)))
      && (r.Ok? ==> AfterConfirm(env, side, w, Some(out), luck) == SendJoinIfReady(env, side, w', luck, 1))
  {
  }

  // ---- the ends from outside ----

  /** The user cancels, or the relay closes the rendezvous: the slot is emptied, and a first end stays. */
  lemma EndsFromOutside(side: Side, reason: ClosedReason, luck: Luck)
    ensures var clears := luck(0, ClearSlot) == Works;
      var gone := side.session.(waiting := None, channel := None);
      && (side.session.Active() ==>
            && Cancel(side, luck) == Emptied(Side(gone.(stage := Ended(Cancelled)), side.store), clears)
            && ClosedPush(side, reason, luck) == Emptied(Side(gone.(stage := Ended(Closed(reason))), side.store), clears))
      && (!side.session.Active() ==>
            && Cancel(side, luck) == Emptied(Side(gone, side.store), clears)
            && ClosedPush(side, reason, luck) == Emptied(Side(gone, side.store), clears))
  {
  }

  // ---- the start of the joiner ----

  /** The session and the first message of a joiner whose store holds `account`. */
  function FirstOf(u: Setup, account: Account, now: int): Result<(Session, Outgoing), FlowError> {
    JoinAny(u.env, PairingLink(u.rendezvousId, u.holderKey), Joiner, u.rendezvousId, u.joinerNetwork, u.eligible,
      Device(account.ed25519, account.curve25519), u.joinerKey, u.std, now)
  }

  /**
   * The joiner has a session once it joined; without its slot it is failed at once, and when the first message
   * does not get through as well. The slot holds the role, the rendezvous and the start.
   */
  lemma StartMeans(u: Setup, sys: System, now: int, luck: Luck)
    ensures var sys' := StartJoiner(u, sys, now, luck);
      var (store, r) := AccountOf(sys.joinerStore, u.device, luck, 0);
      && sys'.holder == sys.holder
      && (r.Err? || luck(0, JoinRendezvous) != Works || FirstOf(u, r.value, now).Err? ==> sys' == sys.(joinerStore := store))
      && (r.Ok? && luck(0, JoinRendezvous) == Works && FirstOf(u, r.value, now).Ok? ==>
            var (s, hello) := FirstOf(u, r.value, now).value;
            && (luck(0, SaveSlot) != Works ==>
                  var side := Emptied(Side(EndedFor(s, Failed), store), luck(0, ClearSlot) == Works);
                  sys' == sys.(joiner := Some(side.session), joinerStore := side.store))
            && (luck(0, SaveSlot) == Works ==>
                  var open := Side(s, store.(slot := Some(Pending(Joiner, u.rendezvousId, now))));
                  var (w, posted) := Post(u.env, sys.world, Joiner, hello, luck(0, PostMessage));
                  var side := if posted.Ok? then open else FailedSide(open, luck(1, ClearSlot) == Works);
                  sys' == sys.(joiner := Some(side.session), joinerStore := side.store, world := w)))
  {
  }

  /** A step of one device is its driver step on its own side; the other side is as it was. */
  lemma NextMeans(u: Setup, sys: System, step: Step)
    requires !step.JoinStep?
    ensures step.role == Joiner && sys.joiner.None? ==> Next(u, sys, step) == sys
    ensures step.role == Creator || sys.joiner.Some? ==>
      var mine := if step.role == Creator then sys.holder else Side(sys.joiner.value, sys.joinerStore);
      var network := if step.role == Creator then u.holderNetwork else u.joinerNetwork;
      var (side, w) := match step
        case PumpStep(_, batch, luck) => var d := Pump(u.env, network, u.device, mine, sys.world, batch, luck); (d.0, d.1)
        case ConfirmStep(_, typed, luck) => var d := ConfirmCode(u.env, mine, sys.world, typed, luck); (d.0, d.1)
        case CancelStep(_, luck) => (Cancel(mine, luck), sys.world)
        case TickStep(_, now, luck) => (Tick(mine, now, luck), sys.world)
        case ClosedStep(_, reason, luck) => (ClosedPush(mine, reason, luck), sys.world);
      Next(u, sys, step) ==
        if step.role == Creator then System(side, sys.joiner, sys.joinerStore, w)
        else System(sys.holder, Some(side.session), side.store, w)
  {
  }
}
