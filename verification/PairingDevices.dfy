/** The driver on one device: it changes the session, the store and the server in place as `PairingDriver` says. */
module PairingDevices {
  import opened Base
  import opened Devices
  import opened Grants
  import opened PairingTypes
  import opened PairingSessions
  import D = PairingDriver
  import M = ListMigration
  import Spec = PairingSpec
  import W = Wire

  /** The relay, the list of the identity and the history. */
  class Server {
    var world: D.World

    constructor (world: D.World)
      ensures this.world == world
    {
      this.world := world;
    }
  }

  type Step = Result<(), D.DriveError>

  class PairingDevice {
    const env: Env
    const network: string
    const spare: Account
    const session: PairingSession
    const server: Server
    var store: Store

    constructor (env: Env, network: string, spare: Account, session: PairingSession, server: Server, store: Store)
      ensures this.env == env && this.network == network && this.spare == spare
      ensures this.session == session && this.server == server && this.store == store
    {
      this.env, this.network, this.spare := env, network, spare;
      this.session, this.server, this.store := session, server, store;
    }

    function Now(): D.Side
      reads this, session
    {
      D.Side(session.State(), store)
    }

    ghost function Driven(r: Step): D.Driven
      reads this, session, server
    {
      (Now(), server.world, r)
    }

    method Post(out: Outgoing, outcome: D.Outcome) returns (r: Step)
      modifies server
      ensures (server.world, r) == D.Post(env, old(server.world), session.role, out, outcome)
    {
      if !W.PairingMessageFits(out.count, out.total, PayloadLen(env, out.payload)) || outcome == D.Fails {
        return Err(D.CallFailed);
      }
      server.world := D.Append(server.world, session.role, out.payload);
      if outcome == D.AnswerLost {
        return Err(D.CallFailed);
      }
      return Ok(());
    }

    method Cleanup(luck: D.Luck, i: nat)
      modifies this
      ensures Now() == D.Cleanup(old(Now()), luck, i)
    {
      if luck(i, D.ClearSlot) == D.Works {
        store := store.(slot := None);
      }
    }

    method Abort(luck: D.Luck, i: nat)
      modifies this, session
      ensures Now() == D.Cleanup(old(Now()).(session := Spec.End(old(session.State()), Failed)), luck, i)
    {
      session.End(Failed);
      Cleanup(luck, i);
    }

    method SendJoinIfReady(luck: D.Luck, i: nat) returns (r: Step)
      modifies session, server
      ensures Driven(r) == D.SendJoinIfReady(env, old(Now()), old(server.world), luck, i)
    {
      if !Spec.JoinReady(session.State()) {
        return Ok(());
      }
      if luck(i, D.ReadAccount) != D.Works {
        return Err(D.Flow(StoreFailed));
      }
      if store.account.None? {
        return Err(D.Flow(NoIdentity));
      }
      var account := store.account.value;
      var signature := Sign(account, W.IdText(account.curve25519, session.master.value));
      var sealed := session.SealJoin(env, signature);
      if sealed.Err? {
        return Err(D.Flow(sealed.error));
      }
      r := Post(sealed.value, luck(i, D.PostMessage));
    }

    method Refuse(reason: string, luck: D.Luck, i: nat) returns (r: Step)
      modifies this, session, server
      ensures Driven(r) == D.Refuse(env, old(Now()), old(server.world), reason, luck, i)
    {
      var sealed := session.SealRefusal(env, reason);
      if sealed.Err? {
        return Err(D.Flow(sealed.error));
      }
      r := Post(sealed.value, luck(i, D.PostMessage));
      if r.Err? {
        return;
      }
      Cleanup(luck, i);
    }

    /** The list goes to the server, then into the store, and only then the answer goes out. */
    method Publish(grant: Grant, luck: D.Luck, i: nat) returns (r: Step)
      modifies this, session, server
      ensures Driven(r) == D.PublishGrant(env, old(Now()), old(server.world), grant, luck, i)
    {
      if M.NewListRequest(grant.master, grant.list).Err? || luck(i, D.PutList) == D.Fails {
        return Err(D.RouteFailed);
      }
      server.world := D.Note(server.world.(grant := Some(grant)), D.Put(grant));
      if luck(i, D.PutList) == D.AnswerLost {
        return Err(D.RouteFailed);
      }
      if luck(i, D.SaveList) != D.Works {
        return Err(D.Flow(StoreFailed));
      }
      store := store.(list := Some(grant.list));
      server.world := D.Note(server.world, D.Kept(Creator, grant.list));
      var sealed := session.SealSigned(env, grant);
      if sealed.Err? {
        return Err(D.Flow(sealed.error));
      }
      r := Post(sealed.value, luck(i, D.PostMessage));
    }

    method FinishCreator(luck: D.Luck, i: nat) returns (r: Step)
      modifies this, session, server
      ensures Driven(r) == D.FinishCreator(env, old(Now()), old(server.world), luck, i)
    {
      var device := Spec.ConfirmedDevice(session.State());
      if device.None? {
        return Err(D.Flow(NotConfirmed));
      }
      if !Spec.PeerIdSignatureValid(session.State()) {
        r := Refuse("failed", luck, i);
        return;
      }
      if luck(i, D.ReadMaster) != D.Works {
        return Err(D.Flow(StoreFailed));
      }
      if store.master.None? || store.list.None? {
        return Err(D.Flow(NoIdentity));
      }
      if device.value.ed25519 in store.list.value.keys {
        r := Refuse("paired", luck, i);
        return;
      }
      var built := BuildGrant(store.master.value, store.list.value, device.value.ed25519);
      match built {
        case Ok(grant) => r := Publish(grant, luck, i);
        case Err(ListFull) => r := Refuse("full", luck, i);
        case Err(error) => r := Err(D.Flow(error));
      }
    }

    method TakeAccount(luck: D.Luck, i: nat) returns (r: Result<Account, FlowError>)
      modifies this
      ensures (store, r) == D.AccountOf(old(store), spare, luck, i)
    {
      if luck(i, D.ReadAccount) != D.Works {
        return Err(StoreFailed);
      }
      if store.account.Some? {
        return Ok(store.account.value);
      }
      if luck(i, D.SaveAccount) != D.Works {
        return Err(StoreFailed);
      }
      store := store.(account := Some(spare));
      return Ok(spare);
    }

    /** Saves the list and the certificate of a grant that passes every check. */
    method Apply(own: string, grant: Grant, access: Access) returns (r: Result<(), FlowError>)
      modifies this, server
      ensures (store, r) == ApplyGrant(old(store), own, grant, access)
      ensures server.world == D.NoteKept(old(server.world), old(store), own, grant, access)
    {
      r := CheckGrant(store, own, grant, access);
      if r.Err? {
        return;
      }
      if !access.saveList {
        return Err(StoreFailed);
      }
      store := store.(list := Some(grant.list));
      server.world := D.Note(server.world, D.Kept(Joiner, grant.list));
      if !access.saveCertificate {
        return Err(StoreFailed);
      }
      store := store.(certificate := Some(grant.certificate));
      server.world := D.Note(server.world, D.KeptCertificate(grant.certificate));
    }

    method FinishJoiner(grant: Grant, luck: D.Luck, i: nat) returns (r: Step)
      modifies this, session, server
      ensures Driven(r) == D.FinishJoiner(env, spare, old(Now()), old(server.world), grant, luck, i)
    {
      var own := TakeAccount(luck, i);
      if own.Err? {
        return Err(D.Flow(own.error));
      }
      var applied := Apply(own.value.ed25519, grant, D.AccessOf(luck, i));
      if applied.Err? {
        return Err(D.Flow(applied.error));
      }
      r := FinishKept(luck, i);
    }

    method FinishKept(luck: D.Luck, i: nat) returns (r: Step)
      modifies this, session, server
      ensures Driven(r) == D.FinishKept(env, old(Now()), old(server.world), luck, i)
    {
      if luck(i, D.Provision) != D.Works {
        return Err(D.ProvisionFailed);
      }
      var sealed := session.SealDone(env);
      if sealed.Err? {
        return Err(D.Flow(sealed.error));
      }
      r := Post(sealed.value, luck(i, D.PostMessage));
      if r.Err? {
        return;
      }
      session.Finish();
      Cleanup(luck, i);
      server.world := D.Note(server.world, D.Finishes(Joiner));
    }

    method Handle(e: FlowEvent, luck: D.Luck, i: nat) returns (r: Step)
      modifies this, session, server
      ensures Driven(r) == D.Handle(env, network, spare, old(Now()), old(server.world), e, luck, i)
    {
      r := Ok(());
      match e {
        case CodeReady =>
        case Offered =>
          if session.network == network {
            r := SendJoinIfReady(luck, i);
          }
        case Joined => r := FinishCreator(luck, i);
        case SignedAnswer(grant) => r := FinishJoiner(grant, luck, i);
        case Paired =>
          session.Finish();
          Cleanup(luck, i);
          server.world := D.Note(server.world, D.Finishes(session.role));
      }
    }

    /** What is left to do from event `k` on. */
    ghost function Left(side: D.Side, w: D.World, events: seq<FlowEvent>, luck: D.Luck, first: nat, k: nat): D.Driven
      requires k <= |events|
    {
      D.HandleAll(env, network, spare, side, w, events[k..], luck, first + k)
    }

    method HandleAt(events: seq<FlowEvent>, luck: D.Luck, first: nat, k: nat) returns (r: Step)
      requires k < |events|
      modifies this, session, server
      ensures Left(old(Now()), old(server.world), events, luck, first, k) ==
        if r.Err? then Driven(r) else Left(Now(), server.world, events, luck, first, k + 1)
    {
      D.HandledSoFar(env, network, spare, Now(), server.world, events, luck, first, k);
      r := Handle(events[k], luck, first + k);
    }

    method HandleAll(events: seq<FlowEvent>, luck: D.Luck, first: nat) returns (r: Step)
      modifies this, session, server
      ensures Driven(r) == Left(old(Now()), old(server.world), events, luck, first, 0)
    {
      r := Ok(());
      ghost var goal := Left(Now(), server.world, events, luck, first, 0);
      var k := 0;
      while k < |events|
        invariant k <= |events|
        invariant Left(Now(), server.world, events, luck, first, k) == goal
      {
        r := HandleAt(events, luck, first, k);
        if r.Err? {
          return;
        }
        k := k + 1;
      }
      D.NoEventsLeft(env, network, spare, Now(), server.world, events, luck, first + k);
      return Ok(());
    }

    method Pump(batch: seq<RelayMessage>, luck: D.Luck) returns (r: Step)
      modifies this, session, server
      ensures Driven(r) == D.Pump(env, network, spare, old(Now()), old(server.world), batch, luck)
    {
      if !session.IsActive() {
        return Err(D.Flow(NotActive));
      }
      r := PumpInner(batch, luck);
      if r.Err? {
        Abort(luck, 0);
      }
    }

    /** What a pump does before a failure ends the pairing. */
    ghost function Pumped(side: D.Side, w: D.World, batch: seq<RelayMessage>, luck: D.Luck): D.Driven {
      if luck(0, D.FetchMessages) != D.Works then (side, w, Err(D.CallFailed))
      else match Spec.Accept(env, side.session, batch)
      case (s, Err(e)) => (side.(session := s), w, Err(D.Flow(e)))
      case (s, Ok(events)) => D.HandleAll(env, network, spare, side.(session := s), w, events, luck, 1)
    }

    method PumpInner(batch: seq<RelayMessage>, luck: D.Luck) returns (r: Step)
      modifies this, session, server
      ensures Driven(r) == Pumped(old(Now()), old(server.world), batch, luck)
    {
      if luck(0, D.FetchMessages) != D.Works {
        return Err(D.CallFailed);
      }
      var events := session.Accept(env, batch);
      if events.Err? {
        return Err(D.Flow(events.error));
      }
      assert events.value[0..] == events.value;
      r := HandleAll(events.value, luck, 1);
    }

    method PrepareHolder(luck: D.Luck) returns (r: Result<(), FlowError>)
      modifies session
      ensures (Now(), r) == D.PrepareHolder(old(Now()), luck)
    {
      if session.role != Creator || session.master.Some? {
        return Ok(());
      }
      if luck(0, D.ReadMaster) != D.Works {
        return Err(StoreFailed);
      }
      if store.master.None? {
        return Err(NoIdentity);
      }
      r := session.SetMaster(store.master.value.ed25519);
    }

    method Confirm(typed: string, luck: D.Luck) returns (r: Step)
      modifies this, session, server
      ensures Driven(r) == D.ConfirmCode(env, old(Now()), old(server.world), typed, luck)
    {
      server.world := D.Note(server.world, D.Typed(session.role, typed));
      var prepared := PrepareHolder(luck);
      if prepared.Err? {
        return Err(D.Flow(prepared.error));
      }
      var sealed := session.Confirm(env, typed);
      match sealed {
        case Err(CodeIsWrong) =>
          Cleanup(luck, 0);
          r := Err(D.Flow(CodeIsWrong));
        case Err(error) => r := Err(D.Flow(error));
        case Ok(out) =>
          r := ConfirmInner(out, luck);
          if r.Err? {
            Abort(luck, 0);
          }
      }
    }

    method ConfirmInner(sealed: Option<Outgoing>, luck: D.Luck) returns (r: Step)
      modifies session, server
      ensures Driven(r) == D.AfterConfirm(env, old(Now()), old(server.world), sealed, luck)
    {
      if sealed.Some? {
        r := Post(sealed.value, luck(0, D.PostMessage));
        if r.Err? {
          return;
        }
      }
      r := SendJoinIfReady(luck, 1);
    }

    method Cancel(luck: D.Luck)
      modifies this, session
      ensures Now() == D.Cancel(old(Now()), luck)
    {
      session.End(Cancelled);
      Cleanup(luck, 0);
    }

    method Tick(now: int, luck: D.Luck) returns (ended: bool)
      modifies this, session
      ensures Now() == D.Tick(old(Now()), now, luck)
      ensures ended == Spec.Expire(old(session.State()), now).1
    {
      ended := session.Expire(now);
      if ended {
        Cleanup(luck, 0);
      }
    }

    method OnClosed(reason: ClosedReason, luck: D.Luck)
      modifies this, session
      ensures Now() == D.ClosedPush(old(Now()), reason, luck)
    {
      session.End(Closed(reason));
      Cleanup(luck, 0);
    }
  }
}
