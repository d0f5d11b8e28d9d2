/** Safety of the whole pairing: what both devices have done when one of them is done, in every run. */
module PairingAgreement {
  import opened Base
  import opened Devices
  import opened PairingTypes
  import opened PairingSpec
  import opened PairingDriver
  import opened PairingHistory
  import H = PairingHolder
  import J = PairingJoiner
  import W = Wire

  /** Before the joiner is there, only the holder did something. */
  ghost predicate BeforeJoiner(u: Setup, sys: System) {
    && (sys.joinerStore.account.Some? ==> sys.joinerStore.account.value == u.device)
    && (forall e :: e in sys.world.history ==> Doer(e) == Creator)
  }

  ghost predicate SystemOk(u: Setup, sys: System) {
    && WorldOk(u, sys.world)
    && H.HolderOk(u, sys.world, sys.holder)
    && (sys.joiner.None? ==> BeforeJoiner(u, sys))
    && (sys.joiner.Some? ==> J.JoinerOk(u, sys.world, Side(sys.joiner.value, sys.joinerStore)))
  }

  lemma InitialOk(u: Setup, sys: System)
    requires StartState(u, sys)
    ensures SystemOk(u, sys)
  {
  }

  /** The first message enters the relay, or does not. */
  lemma HelloPosted(u: Setup, w: World, s: Session, store: Store, hello: Outgoing, outcome: Outcome)
    requires WorldOk(u, w) && J.JoinerSession(u, w, s, 0) && J.JoinerStore(u, w, store)
    requires hello.payload == HelloPayload(u)
    ensures var w' := Post(u.env, w, Joiner, hello, outcome).0;
      && WorldOk(u, w') && Extends(w, w', Joiner) && J.JoinerStore(u, w', store)
      && J.JoinerSession(u, w', s, 0) && J.JoinerSession(u, w', End(s, Failed), 0)
  {
    PostKeeps(u, w, Joiner, hello, outcome);
    H.NoKeptInPost(u, w, Joiner, hello, outcome);
    var w' := Post(u.env, w, Joiner, hello, outcome).0;
    J.JoinerFlagsStay(u, w, w', Joiner, s);
    J.JoinerEnds(u, w', s, Failed);
    J.JoinerStoreStays(u, w, w', store);
  }

  lemma JoinedSession(u: Setup, w: World, now: int)
    ensures var r := JoinAny(u.env, PairingLink(u.rendezvousId, u.holderKey), Joiner, u.rendezvousId, u.joinerNetwork,
                             u.eligible, DeviceOf(u.device), u.joinerKey, u.std, now);
      r.Ok? ==> J.JoinerSession(u, w, r.value.0, 0) && r.value.1.payload == HelloPayload(u)
  {
  }

  lemma JoinStarts(u: Setup, sys: System, now: int, luck: Luck)
    requires SystemOk(u, sys) && sys.joiner.None?
    ensures SystemOk(u, StartJoiner(u, sys, now, luck))
  {
    var store := AccountOf(sys.joinerStore, u.device, luck, 0).0;
    if StartJoiner(u, sys, now, luck).joiner.Some? {
      var (s, hello) := JoinAny(u.env, PairingLink(u.rendezvousId, u.holderKey), Joiner, u.rendezvousId, u.joinerNetwork,
                                u.eligible, DeviceOf(u.device), u.joinerKey, u.std, now).value;
      JoinedSession(u, sys.world, now);
      NothingKept(u, sys.world, store);
      if luck(0, SaveSlot) == Works {
        var kept := store.(slot := Some(PendingOf(s)));
        HelloPosted(u, sys.world, s, kept, hello, luck(0, PostMessage));
        H.HolderUntouched(u, sys.world, Post(u.env, sys.world, Joiner, hello, luck(0, PostMessage)).0, sys.holder);
      } else {
        J.JoinerEnds(u, sys.world, s, Failed);
      }
    }
  }

  lemma NothingKept(u: Setup, w: World, store: Store)
    requires store.account == Some(u.device) && forall e :: e in w.history ==> Doer(e) == Creator
    ensures J.JoinerStore(u, w, store)
  {
    forall list ensures Kept(Joiner, list) !in w.history {
      assert Doer(Kept(Joiner, list)) == Joiner;
    }
    forall c ensures KeptCertificate(c) !in w.history {
      assert Doer(KeptCertificate(c)) == Joiner;
    }
  }

  lemma BatchIsReadable(u: Setup, w: World, batch: seq<RelayMessage>)
    requires WorldOk(u, w) && forall m :: m in batch ==> m in w.relay
    ensures forall m :: m in batch ==> Readable(u, w, m.payload) && FromJoiner(u, m.payload)
  {
    forall m | m in batch ensures Readable(u, w, m.payload) && FromJoiner(u, m.payload) {
      RelayIsReadable(u, w, m);
    }
  }

  lemma NextOk(u: Setup, sys: System, step: Step)
    requires SystemOk(u, sys) && Enabled(sys, step)
    ensures SystemOk(u, Next(u, sys, step))
  {
    if step.PumpStep? {
      BatchIsReadable(u, sys.world, step.batch);
    }
    if step.JoinStep? {
      if sys.joiner.None? {
        JoinStarts(u, sys, step.now, step.luck);
      }
    } else if step.role == Creator {
      H.HolderStep(u, sys.world, sys.holder, step);
      if sys.joiner.Some? {
        J.JoinerUntouched(u, sys.world, SideStep(u, u.holderNetwork, sys.holder, sys.world, step).1,
          Side(sys.joiner.value, sys.joinerStore));
      }
    } else if sys.joiner.Some? {
      var side := Side(sys.joiner.value, sys.joinerStore);
      J.JoinerStep(u, sys.world, side, step);
      H.HolderUntouched(u, sys.world, SideStep(u, u.joinerNetwork, side, sys.world, step).1, sys.holder);
    }
  }

  lemma {:induction false} RunOk(u: Setup, first: System, steps: seq<Step>, last: System)
    requires SystemOk(u, first) && Run(u, first, steps, last)
    ensures SystemOk(u, last)
    decreases |steps|
  {
    if steps != [] {
      NextOk(u, first, steps[0]);
      RunOk(u, Next(u, first, steps[0]), steps[1..], last);
    }
  }

  lemma ReachableOk(u: Setup, sys: System)
    requires Reachable(u, sys)
    ensures SystemOk(u, sys)
  {
    var first, steps :| StartState(u, first) && Run(u, first, steps, sys);
    InitialOk(u, first);
    RunOk(u, first, steps, sys);
  }

  // ---- the story of a pairing ----

  /** What leads to the end of a pairing, in its order, after the user of the holder typed the code. */
  function Part(u: Setup, grant: Grant, k: nat): Happening {
    if k <= 1 then Posted(Creator, OfferMsg(u))
    else if k == 2 then Posted(Joiner, JoinMsg(u))
    else if k == 3 then Put(grant)
    else if k == 4 then Kept(Creator, grant.list)
    else if k == 5 then Posted(Creator, AnswerMsg(u, grant))
    else if k == 6 then Kept(Joiner, grant.list)
    else if k == 7 then KeptCertificate(grant.certificate)
    else Posted(Joiner, DoneMsg(u))
  }

  /** Parts 1 to `k` of the story are among the first `n` of the history, in this order, after the right code. */
  ghost predicate Told(u: Setup, history: seq<Happening>, n: nat, grant: Grant, k: nat)
    requires n <= |history|
    decreases k
  {
    if k == 0 then TypedRight(u, history[..n], Creator)
    else exists i: nat :: i < n && history[i] == Part(u, grant, k) && Told(u, history, i, grant, k - 1)
  }

  /** Each part of the story from the second on has the part before it as a cause. */
  lemma PartBefore(u: Setup, h: seq<Happening>, i: nat, grant: Grant, k: nat)
    requires Causal(u, h) && i < |h| && 2 <= k <= 8 && h[i] == Part(u, grant, k)
    requires k > 3 ==> Put(grant) in h
    ensures Part(u, grant, k - 1) in h[..i]
  {
    match k {
      case 2 => CauseOfJoin(u, h, i);
      case 3 => CauseOfPut(u, h, i);
      case 4 => CauseOfKept(u, h, i, grant);
      case 5 => CauseOfAnswer(u, h, i, grant);
      case 6 => CauseOfJoinerKept(u, h, i, grant);
      case 7 => CauseOfCertificate(u, h, i, grant);
      case 8 => var g := CauseOfDone(u, h, i); OnePut(u, h, grant, g);
    }
  }

  /** Whatever part of the story happened, all the parts before it happened, one after the other. */
  lemma {:induction false} StorySoFar(u: Setup, history: seq<Happening>, n: nat, grant: Grant, k: nat)
    requires Causal(u, history) && n <= |history| && 1 <= k <= 8
    requires Part(u, grant, k) in history[..n]
    requires k > 3 ==> Put(grant) in history
    ensures Told(u, history, n, grant, k)
    decreases k
  {
    var i :| 0 <= i < n && history[i] == Part(u, grant, k);
    if k == 1 {
      CauseOfOffer(u, history, i);
    } else {
      PartBefore(u, history, i, grant, k);
      StorySoFar(u, history, i, grant, k - 1);
    }
    assert Told(u, history, i, grant, k - 1);
  }

  // ---- the theorems ----

  /** Both devices hold what the holder granted, and all of it happened in the order of the protocol. */
  ghost predicate Agreed(u: Setup, sys: System, grant: Grant) {
    && HolderGrant(u, grant)
    && sys.holder.store.list == Some(grant.list)
    && sys.joinerStore.list == Some(grant.list)
    && sys.joinerStore.certificate == Some(grant.certificate)
    && Told(u, sys.world.history, |sys.world.history|, grant, 8)
  }

  /** A part that the telling of a later part rests on is in the history. */
  lemma {:induction false} PartTold(u: Setup, h: seq<Happening>, n: nat, grant: Grant, k: nat, j: nat)
    requires n <= |h| && Told(u, h, n, grant, k) && 1 <= j <= k
    ensures Part(u, grant, j) in h
    decreases k
  {
    var i: nat :| i < n && h[i] == Part(u, grant, k) && Told(u, h, i, grant, k - 1);
    if j < k {
      PartTold(u, h, i, grant, k - 1, j);
    }
  }

  /** When `done` is on its way, everything before it happened. */
  lemma DoneMeans(u: Setup, h: seq<Happening>) returns (grant: Grant)
    requires Causal(u, h) && Posted(Joiner, DoneMsg(u)) in h
    ensures Put(grant) in h && Told(u, h, |h|, grant, 8)
  {
    var i :| 0 <= i < |h| && h[i] == Posted(Joiner, DoneMsg(u));
    grant := CauseOfDone(u, h, i);
    assert h[..|h|] == h;
    StorySoFar(u, h, |h|, grant, 8);
  }

  /** The parts of the story that the stores show. */
  lemma DoneKept(u: Setup, h: seq<Happening>) returns (grant: Grant)
    requires Causal(u, h) && Posted(Joiner, DoneMsg(u)) in h
    ensures Put(grant) in h && Told(u, h, |h|, grant, 8)
    ensures Kept(Creator, grant.list) in h && Kept(Joiner, grant.list) in h && KeptCertificate(grant.certificate) in h
  {
    grant := DoneMeans(u, h);
    PartTold(u, h, |h|, grant, 8, 4);
    PartTold(u, h, |h|, grant, 8, 6);
    PartTold(u, h, |h|, grant, 8, 7);
  }

  /** What was kept is in the stores. */
  lemma KeptIsStored(u: Setup, sys: System, grant: Grant)
    requires SystemOk(u, sys) && Put(grant) in sys.world.history
    requires Kept(Creator, grant.list) in sys.world.history
    requires Kept(Joiner, grant.list) in sys.world.history && KeptCertificate(grant.certificate) in sys.world.history
    ensures HolderGrant(u, grant) && sys.holder.store.list == Some(grant.list)
    ensures sys.joinerStore.list == Some(grant.list) && sys.joinerStore.certificate == Some(grant.certificate)
  {
    assert Doer(Kept(Joiner, grant.list)) == Joiner;
    assert sys.joiner.Some?;
  }

  lemma DoneAgrees(u: Setup, sys: System)
    requires SystemOk(u, sys) && Posted(Joiner, DoneMsg(u)) in sys.world.history
    ensures exists grant :: Agreed(u, sys, grant)
  {
    var grant := DoneKept(u, sys.world.history);
    KeptIsStored(u, sys, grant);
    assert Agreed(u, sys, grant);
  }

  /**
   * Agreement. In every run, with every call and every write failing or not: when the holder is done, or
   * the joiner is, then the server took the list of one grant, the holder built that grant from its own
   * list for the device that joined and keeps its list, and the joiner keeps its list and certificate.
   * The holder kept the list after the server took it and before the answer went out, and `done` went out
   * after the joiner kept both.
   */
  lemma Agreement(u: Setup, sys: System)
    requires Reachable(u, sys)
    requires sys.holder.session.stage == Finished || (sys.joiner.Some? && sys.joiner.value.stage == Finished)
    ensures exists grant :: Agreed(u, sys, grant)
  {
    ReachableOk(u, sys);
    DoneAgrees(u, sys);
  }

  /** A list on the server, or an answer that carries one. */
  predicate GivesAway(e: Happening) {
    e.Put? || (e.Posted? && e.role == Creator && e.message.Signed? && e.message.signed != [])
  }

  /** A `join` whose id signature verifies for the master. */
  ghost predicate VerifiedJoin(history: seq<Happening>, master: string) {
    exists entry: WireJoined, skipped ::
      && Posted(Joiner, Join(WIRE_VERSION, [entry], skipped)) in history
      && VerifySignature(entry.ed25519, entry.sig, W.IdText(entry.curve25519, master)).Ok?
  }

  /**
   * Nothing is published or answered early. Before the server takes a list or the answer with a list
   * enters the relay, in every run: both users typed the check code of the channel, the offer of the
   * master went out, and a `join` came in that the new device signed for that master.
   */
  lemma NothingEarly(u: Setup, sys: System, i: nat)
    requires Reachable(u, sys) && i < |sys.world.history| && GivesAway(sys.world.history[i])
    ensures var before := sys.world.history[..i];
      && TypedRight(u, before, Creator) && TypedRight(u, before, Joiner)
      && u.master.Some? && Posted(Creator, OfferMsg(u)) in before
      && VerifiedJoin(before, u.master.value.ed25519)
  {
    ReachableOk(u, sys);
    NothingEarlyIn(u, sys.world, i);
  }

  lemma NothingEarlyIn(u: Setup, w: World, i: nat)
    requires WorldOk(u, w) && i < |w.history| && GivesAway(w.history[i])
    ensures var before := w.history[..i];
      && TypedRight(u, before, Creator) && TypedRight(u, before, Joiner)
      && u.master.Some? && Posted(Creator, OfferMsg(u)) in before
      && VerifiedJoin(before, u.master.value.ed25519)
  {
    var h := w.history;
    assert Caused(u, h[..i], h[i]);
    if h[i].Posted? {
      var grant: Grant :| h[i].message == AnswerMsg(u, grant) && Put(grant) in h[..i] && Kept(Creator, grant.list) in h[..i];
      var j :| 0 <= j < i && h[j] == Put(grant);
      JoinedBefore(u, h, j);
      Prefixes(u, h, j, i);
    } else {
      JoinedBefore(u, h, i);
    }
  }

  ghost predicate BothConfirmed(u: Setup, before: seq<Happening>) {
    && TypedRight(u, before, Creator) && TypedRight(u, before, Joiner)
    && Posted(Creator, OfferMsg(u)) in before && Posted(Joiner, JoinMsg(u)) in before
    && VerifiedJoin(before, MasterKey(u))
  }

  lemma MemberLater<T>(s: seq<T>, j: nat, i: nat, x: T)
    requires j <= i <= |s| && x in s[..j]
    ensures x in s[..i]
  {
    var k :| 0 <= k < j && s[..j][k] == x;
    assert s[..i][k] == x;
  }

  lemma TypedLater(u: Setup, h: seq<Happening>, j: nat, i: nat, role: Role)
    requires j <= i <= |h| && TypedRight(u, h[..j], role)
    ensures TypedRight(u, h[..i], role)
  {
    var text :| RightCode(u, text) && Typed(role, text) in h[..j];
    MemberLater(h, j, i, Typed(role, text));
  }

  lemma JoinVerifies(u: Setup, h: seq<Happening>)
    requires Posted(Joiner, JoinMsg(u)) in h
    ensures VerifiedJoin(h, MasterKey(u))
  {
    var entry := WireJoined(u.holderNetwork, u.device.curve25519, u.device.ed25519, IdSignature(u));
    assert JoinMsg(u) == Join(WIRE_VERSION, [entry], []);
    assert VerifySignature(entry.ed25519, entry.sig, W.IdText(entry.curve25519, MasterKey(u))).Ok?;
  }

  lemma Prefixes(u: Setup, h: seq<Happening>, j: nat, i: nat)
    requires j <= i <= |h| && BothConfirmed(u, h[..j])
    ensures BothConfirmed(u, h[..i])
  {
    TypedLater(u, h, j, i, Creator);
    TypedLater(u, h, j, i, Joiner);
    MemberLater(h, j, i, Posted(Creator, OfferMsg(u)));
    MemberLater(h, j, i, Posted(Joiner, JoinMsg(u)));
    JoinVerifies(u, h[..i]);
  }

  lemma JoinedBefore(u: Setup, h: seq<Happening>, i: nat)
    requires Causal(u, h) && i < |h| && h[i].Put?
    ensures BothConfirmed(u, h[..i]) && u.master.Some?
  {
    CauseOfPut(u, h, i);
    var j :| 0 <= j < i && h[j] == Posted(Joiner, JoinMsg(u));
    CauseOfJoin(u, h, j);
    var k :| 0 <= k < j && h[k] == Posted(Creator, OfferMsg(u));
    CauseOfOffer(u, h, k);
    TypedLater(u, h, j, i, Joiner);
    TypedLater(u, h, k, i, Creator);
    MemberLater(h, j, i, Posted(Creator, OfferMsg(u)));
    JoinVerifies(u, h[..i]);
  }
}
