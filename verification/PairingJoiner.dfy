/** What the joiner keeps in every run: its session, its store and what it does are in step. */
module PairingJoiner {
  import opened Base
  import opened Devices
  import opened Grants
  import opened PairingTypes
  import opened PairingSpec
  import opened PairingDriver
  import opened PairingHistory
  import CatchUp = PairingCatchUp
  import H = PairingHolder

  /** The ends of the channel count what was sealed and opened; `pending` answers are read and not handled. */
  ghost predicate JoinerChannel(u: Setup, s: Session, pending: nat) {
    && s.stage != Open
    && (s.stage == Keyed ==>
          && s.channel.Some? && s.channel.value.id == Cid(u) && s.channel.value.side == Joiner
          && s.channel.value.sent == (if s.joinSent then 2 else 1)
          && s.channel.value.received == (if s.master.None? then 0 else 1 + pending))
    && (!s.Active() ==> s.channel.None? && s.waiting.None?)
  }

  ghost predicate JoinerFlags(u: Setup, w: World, s: Session) {
    && s.role == Joiner && s.code == Some(Code(u))
    && s.ownDevice == Some(DeviceOf(u.device)) && s.skipped == []
    && (s.ownConfirmed ==> TypedRight(u, w.history, Joiner))
    && (s.master.Some? ==>
          && u.master.Some? && s.master.value == MasterKey(u) && s.network == u.holderNetwork
          && Posted(Creator, OfferMsg(u)) in w.history)
    && (s.joinSent ==> s.ownConfirmed && s.master.Some?)
    && (s.stage == Finished ==> Posted(Joiner, DoneMsg(u)) in w.history)
  }

  ghost predicate JoinerSession(u: Setup, w: World, s: Session, pending: nat) {
    && JoinerChannel(u, s, pending)
    && JoinerFlags(u, w, s)
    && pending <= (if s.master.Some? then 1 else 0)
  }

  ghost predicate JoinerStore(u: Setup, w: World, store: Store) {
    && store.account == Some(u.device)
    && (forall list :: Kept(Joiner, list) in w.history ==> store.list == Some(list))
    && (forall c :: KeptCertificate(c) in w.history ==> store.certificate == Some(c))
  }

  function Answers(events: seq<FlowEvent>): nat {
    if events == [] then 0 else (if events[0].SignedAnswer? then 1 else 0) + Answers(events[1..])
  }

  lemma JoinerEnds(u: Setup, w: World, s: Session, reason: EndReason)
    requires JoinerFlags(u, w, s) && s.stage != Open
    ensures JoinerSession(u, w, End(s, reason), 0)
  {
  }

  // ---- taking a message in ----

  ghost predicate JoinerTaken(u: Setup, w: World, taken: Taken, pending: nat) {
    match taken.1
    case Err(_) => JoinerSession(u, w, taken.0, 0)
    case Ok(None) => JoinerSession(u, w, taken.0, pending)
    case Ok(Some(e)) =>
      && H.EventOk(u, w, e) && !e.Joined? && !e.Paired?
      && JoinerSession(u, w, taken.0, pending + (if e.SignedAnswer? then 1 else 0))
  }

  lemma OnlyOffered(name: string, master: string, wanted: string)
    ensures OfferedMaster([WireNetwork(name, master)], wanted) == if name == wanted then Some(master) else None
    ensures name == wanted ==> LeftOut([WireNetwork(name, master)], wanted) == []
  {
    var networks := [WireNetwork(name, master)];
    assert networks[..0] == [];
    assert OfferedMaster(networks[..0], wanted) == None;
    assert LeftOut(networks[..0], wanted) == [];
  }

  lemma JoinerTakesOffer(u: Setup, w: World, s: Session)
    requires JoinerSession(u, w, s, 0) && s.stage == Keyed && s.master.None? && u.master.Some?
    requires Posted(Creator, OfferMsg(u)) in w.history
    ensures JoinerTaken(u, w, TakePlain(Opened(s), Json(OfferMsg(u))), 0)
  {
    var read := Opened(s);
    var networks := OfferMsg(u).networks;
    var chosen := ChosenNetwork(read, networks);
    OnlyOffered(u.holderNetwork, MasterKey(u), chosen);
    JoinerEnds(u, w, read, BadMessage);
    JoinerEnds(u, w, read.(network := chosen), Failed);
  }

  /** The grant is for this device under the master of the holder. */
  ghost predicate GrantReads(u: Setup, grant: Grant) {
    && grant.master == MasterKey(u)
    && grant.certificate == Certificate(grant.list.version, u.device.ed25519, MasterKey(u), grant.certificate.signature)
  }

  lemma HolderGrantReads(u: Setup, grant: Grant)
    requires HolderGrant(u, grant)
    ensures GrantReads(u, grant)
  {
    BuiltCertificate(u.master.value, u.list.value, u.device.ed25519);
  }

  /** The joiner reads back the grant that the holder sealed. */
  lemma AnswerReadsBack(u: Setup, s: Session, grant: Grant)
    requires GrantReads(u, grant) && s.network == u.holderNetwork
    requires s.master == Some(MasterKey(u)) && s.ownDevice == Some(DeviceOf(u.device))
    ensures TakeSigned(s, AnswerMsg(u, grant).signed) == (s, Ok(Some(SignedAnswer(grant))))
  {
    assert FindSigned(AnswerMsg(u, grant).signed, u.holderNetwork) == Some(AnswerMsg(u, grant).signed[0]);
  }

  lemma JoinerTakesAnswer(u: Setup, w: World, s: Session, grant: Grant)
    requires GrantReads(u, grant) && JoinerSession(u, w, s, 0) && s.stage == Keyed && s.master.Some?
    requires w.grant == Some(grant) && Posted(Creator, AnswerMsg(u, grant)) in w.history
    ensures JoinerTaken(u, w, TakePlain(Opened(s), Json(AnswerMsg(u, grant))), 0)
  {
    var read := Opened(s);
    JoinerEnds(u, w, read, BadMessage);
    AnswerReadsBack(u, read, grant);
  }

  lemma JoinerTakesRefusal(u: Setup, w: World, s: Session, m: Message)
    requires JoinerSession(u, w, s, 0) && s.stage == Keyed && s.master.Some? && IsRefusal(m)
    ensures JoinerTaken(u, w, TakePlain(Opened(s), Json(m)), 0)
  {
    var read := Opened(s);
    JoinerEnds(u, w, read, BadMessage);
    JoinerEnds(u, w, read, Failed);
  }

  lemma JoinerTakesSealed(u: Setup, w: World, s: Session, m: RelayMessage, pending: nat)
    requires WorldOk(u, w) && JoinerSession(u, w, s, pending) && s.stage == Keyed
    requires Readable(u, w, m.payload)
    ensures JoinerTaken(u, w, TakeSealed(s, m.payload), pending)
  {
    if !m.payload.Sealed? && !m.payload.std {
      JoinerEnds(u, w, s, BadMessage);
    } else if !Opens(s.channel.value, m.payload) {
      JoinerEnds(u, w, s, BadChannel);
    } else if m.payload.n == 0 {
      JoinerTakesOffer(u, w, s);
    } else if IsRefusal(MessageOf(m.payload)) {
      JoinerTakesRefusal(u, w, s, MessageOf(m.payload));
    } else {
      HolderGrantReads(u, w.grant.value);
      JoinerTakesAnswer(u, w, s, w.grant.value);
    }
  }

  lemma JoinerAcceptsOne(u: Setup, w: World, s: Session, m: RelayMessage, pending: nat)
    requires WorldOk(u, w) && JoinerSession(u, w, s, pending) && Readable(u, w, m.payload)
    ensures JoinerTaken(u, w, AcceptOne(u.env, s, m), pending)
  {
    var seen := s.(lastSeq := m.seqno);
    assert JoinerSession(u, w, seen, pending);
    if m.seqno > s.lastSeq && m.from == Creator {
      JoinerEnds(u, w, seen, BadMessage);
    }
    if m.seqno > s.lastSeq && m.from == Creator && s.stage == Keyed {
      var counted := Counted(u.env, s, m);
      assert JoinerSession(u, w, counted, pending);
      JoinerTakesSealed(u, w, counted, m, pending);
    }
  }

  ghost predicate JoinerEvents(u: Setup, w: World, events: seq<FlowEvent>) {
    forall e :: e in events ==> H.EventOk(u, w, e) && !e.Joined? && !e.Paired?
  }

  lemma {:induction false} JoinerAccepts(u: Setup, w: World, s: Session, sorted: seq<RelayMessage>, pending: nat)
    requires WorldOk(u, w) && JoinerSession(u, w, s, pending)
    requires forall m :: m in sorted ==> Readable(u, w, m.payload)
    ensures var (s', r) := AcceptSorted(u.env, s, sorted);
      match r
      case Err(_) => JoinerSession(u, w, s', 0)
      case Ok(events) => JoinerSession(u, w, s', pending + Answers(events)) && JoinerEvents(u, w, events)
    decreases |sorted|
  {
    if sorted != [] {
      JoinerAcceptsOne(u, w, s, sorted[0], pending);
      match AcceptOne(u.env, s, sorted[0])
      case (s', Err(_)) =>
      case (s', Ok(None)) =>
        JoinerAccepts(u, w, s', sorted[1..], pending);
        match AcceptSorted(u.env, s', sorted[1..]).1 {
          case Ok(more) => assert [] + more == more;
          case Err(_) =>
        }
      case (s', Ok(Some(e))) =>
        JoinerAccepts(u, w, s', sorted[1..], pending + (if e.SignedAnswer? then 1 else 0));
        match AcceptSorted(u.env, s', sorted[1..]).1 {
          case Ok(more) => assert ([e] + more)[1..] == more;
          case Err(_) =>
        }
    }
  }

  // ---- the driver of the joiner ----

  ghost predicate JoinerDriven(u: Setup, w: World, d: Driven, pending: nat) {
    && WorldOk(u, d.1) && Extends(w, d.1, Joiner) && JoinerStore(u, d.1, d.0.store)
    && JoinerSession(u, d.1, if d.2.Ok? then d.0.session else End(d.0.session, Failed), if d.2.Ok? then pending else 0)
  }

  lemma JoinerFlagsStay(u: Setup, w: World, w': World, role: Role, s: Session)
    requires JoinerFlags(u, w, s) && Extends(w, w', role)
    ensures JoinerFlags(u, w', s)
  {
    if s.ownConfirmed {
      TypedStays(u, w, w', role, Joiner);
    }
    if s.master.Some? {
      ExtendsMember(w, w', role, Posted(Creator, OfferMsg(u)));
    }
    if s.stage == Finished {
      ExtendsMember(w, w', role, Posted(Joiner, DoneMsg(u)));
    }
  }

  lemma JoinerStoreStays(u: Setup, w: World, w': World, store: Store)
    requires JoinerStore(u, w, store)
    requires forall e :: e in w'.history && e !in w.history ==> !e.KeptCertificate? && (e.Kept? ==> e.role == Creator)
    ensures JoinerStore(u, w', store)
  {
  }

  lemma JoinerPosts(u: Setup, w: World, side: Side, sealed: (Session, Result<Outgoing, FlowError>), luck: Luck, i: nat, pending: nat)
    requires WorldOk(u, w) && JoinerStore(u, w, side.store) && side.session.role == Joiner
    requires sealed.1.Ok? && JoinerSession(u, w, sealed.0, pending)
    requires Caused(u, w.history, Posted(Joiner, MessageOf(sealed.1.value.payload)))
    requires Shape(u, w, RelayMessage(|w.relay| + 1, Joiner, sealed.1.value.payload))
    ensures JoinerDriven(u, w, PostSealed(u.env, side, w, sealed, luck, i), pending)
  {
    var d := PostSealed(u.env, side, w, sealed, luck, i);
    var out := sealed.1.value;
    PostKeeps(u, w, Joiner, out, luck(i, PostMessage));
    H.NoKeptInPost(u, w, Joiner, out, luck(i, PostMessage));
    JoinerStoreStays(u, w, d.1, side.store);
    JoinerFlagsStay(u, w, d.1, Joiner, sealed.0);
    JoinerEnds(u, d.1, sealed.0, Failed);
  }

  lemma JoinerSendsJoin(u: Setup, w: World, side: Side, luck: Luck, i: nat, pending: nat)
    requires WorldOk(u, w) && JoinerSession(u, w, side.session, pending) && JoinerStore(u, w, side.store)
    ensures JoinerDriven(u, w, SendJoinIfReady(u.env, side, w, luck, i), pending)
  {
    var s := side.session;
    JoinerEnds(u, w, s, Failed);
    if JoinReady(s) && luck(i, ReadAccount) == Works {
      var sealed := SealJoin(u.env, s, IdSignature(u));
      if sealed.1.Ok? {
        assert sealed.1.value.payload == Sealed(Cid(u), Joiner, 1, Json(JoinMsg(u)));
        assert JoinerSession(u, w, sealed.0, pending);
        JoinerPosts(u, w, side, sealed, luck, i, pending);
      } else {
        JoinerEnds(u, w, sealed.0, Failed);
      }
    }
  }

  /** A store keeps nothing of a grant, or its list, or its list and its certificate. */
  lemma WhatIsKept(w: World, store: Store, own: string, grant: Grant, access: Access)
    ensures var w' := NoteKept(w, store, own, grant, access);
      var (store', r) := ApplyGrant(store, own, grant, access);
      || (r.Err? && w' == w && store' == store)
      || (r.Err? && w' == Note(w, Kept(Joiner, grant.list)) && store' == store.(list := Some(grant.list)))
      || (r.Ok? && w' == Note(Note(w, Kept(Joiner, grant.list)), KeptCertificate(grant.certificate))
          && store' == store.(list := Some(grant.list), certificate := Some(grant.certificate)))
  {
  }

  lemma JoinerKeepsList(u: Setup, w: World, store: Store, grant: Grant)
    requires WorldOk(u, w) && JoinerStore(u, w, store)
    requires w.grant == Some(grant) && Posted(Creator, AnswerMsg(u, grant)) in w.history
    ensures var w' := Note(w, Kept(Joiner, grant.list));
      && WorldOk(u, w') && Extends(w, w', Joiner) && JoinerStore(u, w', store.(list := Some(grant.list)))
      && Kept(Joiner, grant.list) in w'.history && Put(grant) in w'.history
  {
    var w' := Note(w, Kept(Joiner, grant.list));
    NoteKeeps(u, w, Kept(Joiner, grant.list));
    KeptOnce(u, w', grant);
    assert w'.history[|w.history|] == Kept(Joiner, grant.list);
  }

  lemma JoinerKeepsCertificate(u: Setup, w: World, store: Store, grant: Grant)
    requires WorldOk(u, w) && JoinerStore(u, w, store)
    requires w.grant == Some(grant) && Put(grant) in w.history && Kept(Joiner, grant.list) in w.history
    ensures var w' := Note(w, KeptCertificate(grant.certificate));
      && WorldOk(u, w') && Extends(w, w', Joiner) && JoinerStore(u, w', store.(certificate := Some(grant.certificate)))
      && KeptCertificate(grant.certificate) in w'.history && Put(grant) in w'.history
  {
    var w' := Note(w, KeptCertificate(grant.certificate));
    NoteKeeps(u, w, KeptCertificate(grant.certificate));
    KeptOnce(u, w', grant);
    assert w'.history[|w.history|] == KeptCertificate(grant.certificate);
  }

  /** What the store of the joiner keeps is the list and the certificate of the grant that the server took. */
  lemma JoinerKeeps(u: Setup, w: World, store: Store, grant: Grant, access: Access)
    requires WorldOk(u, w) && JoinerStore(u, w, store)
    requires w.grant == Some(grant) && Posted(Creator, AnswerMsg(u, grant)) in w.history
    ensures var w' := NoteKept(w, store, u.device.ed25519, grant, access);
      var (store', r) := ApplyGrant(store, u.device.ed25519, grant, access);
      && WorldOk(u, w') && Extends(w, w', Joiner) && JoinerStore(u, w', store')
      && (r.Ok? ==> KeptCertificate(grant.certificate) in w'.history && Put(grant) in w'.history)
  {
    WhatIsKept(w, store, u.device.ed25519, grant, access);
    var w' := NoteKept(w, store, u.device.ed25519, grant, access);
    if w' != w {
      var w1 := Note(w, Kept(Joiner, grant.list));
      JoinerKeepsList(u, w, store, grant);
      if ApplyGrant(store, u.device.ed25519, grant, access).1.Ok? {
        JoinerKeepsCertificate(u, w1, store.(list := Some(grant.list)), grant);
        ExtendsTwice(w, w1, w', Joiner);
      }
    }
  }

  lemma PutOfList(u: Setup, h: seq<Happening>, list: SignedList) returns (g: Grant)
    requires Causal(u, h) && Kept(Joiner, list) in h
    ensures Put(g) in h && g.list == list
  {
    var i :| 0 <= i < |h| && h[i] == Kept(Joiner, list);
    assert Caused(u, h[..i], h[i]);
    g :| list == g.list && Put(g) in h[..i];
  }

  lemma PutOfCertificate(u: Setup, h: seq<Happening>, c: Certificate) returns (g: Grant)
    requires Causal(u, h) && KeptCertificate(c) in h
    ensures Put(g) in h && g.certificate == c
  {
    var i :| 0 <= i < |h| && h[i] == KeptCertificate(c);
    assert Caused(u, h[..i], h[i]);
    g :| c == g.certificate && Put(g) in h[..i];
  }

  /** Every list and certificate that the joiner keeps is the one of the grant. */
  lemma KeptOnce(u: Setup, w: World, grant: Grant)
    requires WorldOk(u, w) && w.grant == Some(grant)
    ensures forall list :: Kept(Joiner, list) in w.history ==> list == grant.list
    ensures forall c :: KeptCertificate(c) in w.history ==> c == grant.certificate
  {
    forall list | Kept(Joiner, list) in w.history ensures list == grant.list {
      var g := PutOfList(u, w.history, list);
      assert w.grant == Some(g);
    }
    forall c | KeptCertificate(c) in w.history ensures c == grant.certificate {
      var g := PutOfCertificate(u, w.history, c);
      assert w.grant == Some(g);
    }
  }

  lemma JoinerSealsDone(u: Setup, w: World, s: Session)
    requires JoinerSession(u, w, s, 1)
    ensures var (s', r) := SealDone(u.env, s);
      && JoinerFlags(u, w, s') && s'.stage == s.stage
      && (r.Ok? ==> r.value.payload == Sealed(Cid(u), Joiner, 2, Json(DoneMsg(u))) && s.stage == Keyed)
  {
  }

  lemma JoinerPostsDone(u: Setup, w: World, side: Side, grant: Grant, luck: Luck, i: nat)
    requires WorldOk(u, w) && JoinerSession(u, w, side.session, 1) && JoinerStore(u, w, side.store)
    requires KeptCertificate(grant.certificate) in w.history && Put(grant) in w.history
    ensures var d := PostSealed(u.env, side, w, SealDone(u.env, side.session), luck, i);
      && WorldOk(u, d.1) && Extends(w, d.1, Joiner) && JoinerStore(u, d.1, d.0.store)
      && JoinerFlags(u, d.1, d.0.session) && d.0.session.stage != Open
      && (d.2.Ok? ==> Posted(Joiner, DoneMsg(u)) in d.1.history)
  {
    var sealed := SealDone(u.env, side.session);
    JoinerSealsDone(u, w, side.session);
    if sealed.1.Ok? {
      var out := sealed.1.value;
      var d := PostSealed(u.env, side, w, sealed, luck, i);
      assert Caused(u, w.history, Posted(Joiner, DoneMsg(u)));
      PostKeeps(u, w, Joiner, out, luck(i, PostMessage));
      H.NoKeptInPost(u, w, Joiner, out, luck(i, PostMessage));
      JoinerStoreStays(u, w, d.1, side.store);
      JoinerFlagsStay(u, w, d.1, Joiner, sealed.0);
    }
  }

  lemma FinishInTwo(u: Setup, side: Side, w: World, grant: Grant, luck: Luck, i: nat)
    requires side.store.account == Some(u.device)
    ensures FinishJoiner(u.env, u.device, side, w, grant, luck, i) ==
      if luck(i, ReadAccount) != Works then (side, w, Err(Flow(StoreFailed)))
      else
        var (store', r) := ApplyGrant(side.store, u.device.ed25519, grant, AccessOf(luck, i));
        var w' := NoteKept(w, side.store, u.device.ed25519, grant, AccessOf(luck, i));
        match r
        case Err(e) => (side.(store := store'), w', Err(Flow(e)))
        case Ok(_) => FinishKept(u.env, side.(store := store'), w', luck, i)
  {
    assert side.(store := side.store) == side;
  }

  lemma JoinerFinishesPosted(u: Setup, w: World, d: Driven, luck: Luck, i: nat)
    requires WorldOk(u, d.1) && Extends(w, d.1, Joiner) && JoinerStore(u, d.1, d.0.store)
    requires JoinerFlags(u, d.1, d.0.session) && d.0.session.stage != Open
    requires Posted(Joiner, DoneMsg(u)) in d.1.history
    ensures JoinerDriven(u, w,
      (Cleanup(d.0.(session := Finish(d.0.session)), luck, i), Note(d.1, Finishes(Joiner)), Ok(())), 0)
  {
    JoinerIsDone(u, d.1, d.0.session, d.0.store);
    ExtendsTwice(w, d.1, Note(d.1, Finishes(Joiner)), Joiner);
  }

  lemma JoinerFinishesKept(u: Setup, w: World, side: Side, grant: Grant, luck: Luck, i: nat)
    requires WorldOk(u, w) && JoinerSession(u, w, side.session, 1) && JoinerStore(u, w, side.store)
    requires KeptCertificate(grant.certificate) in w.history && Put(grant) in w.history
    ensures JoinerDriven(u, w, FinishKept(u.env, side, w, luck, i), 0)
  {
    if luck(i, Provision) != Works {
      JoinerEnds(u, w, side.session, Failed);
    } else {
      JoinerPostsDone(u, w, side, grant, luck, i);
      var d := PostSealed(u.env, side, w, SealDone(u.env, side.session), luck, i);
      if d.2.Err? {
        JoinerEnds(u, d.1, d.0.session, Failed);
      } else {
        JoinerFinishesPosted(u, w, d, luck, i);
      }
    }
  }

  lemma JoinerFinishes(u: Setup, w: World, side: Side, grant: Grant, luck: Luck, i: nat)
    requires WorldOk(u, w) && JoinerSession(u, w, side.session, 1) && JoinerStore(u, w, side.store)
    requires w.grant == Some(grant) && Posted(Creator, AnswerMsg(u, grant)) in w.history
    ensures JoinerDriven(u, w, FinishJoiner(u.env, u.device, side, w, grant, luck, i), 0)
  {
    FinishInTwo(u, side, w, grant, luck, i);
    JoinerEnds(u, w, side.session, Failed);
    if luck(i, ReadAccount) == Works {
      JoinerKeeps(u, w, side.store, grant, AccessOf(luck, i));
      var (store', r) := ApplyGrant(side.store, u.device.ed25519, grant, AccessOf(luck, i));
      var w' := NoteKept(w, side.store, u.device.ed25519, grant, AccessOf(luck, i));
      JoinerFlagsStay(u, w, w', Joiner, side.session);
      JoinerEnds(u, w', side.session, Failed);
      if r.Ok? {
        var after := side.(store := store');
        JoinerFinishesKept(u, w', after, grant, luck, i);
        ExtendsTwice(w, w', FinishKept(u.env, after, w', luck, i).1, Joiner);
      }
    }
  }

  lemma JoinerIsDone(u: Setup, w: World, s: Session, store: Store)
    requires WorldOk(u, w) && JoinerFlags(u, w, s) && s.stage != Open && JoinerStore(u, w, store)
    requires Posted(Joiner, DoneMsg(u)) in w.history
    ensures var w' := Note(w, Finishes(Joiner));
      WorldOk(u, w') && Extends(w, w', Joiner) && JoinerStore(u, w', store) && JoinerSession(u, w', Finish(s), 0)
  {
    var w' := Note(w, Finishes(Joiner));
    NoteKeeps(u, w, Finishes(Joiner));
    JoinerFlagsStay(u, w, w', Joiner, s);
    JoinerStoreStays(u, w, w', store);
    ExtendsMember(w, w', Joiner, Posted(Joiner, DoneMsg(u)));
  }

  lemma JoinerHandles(u: Setup, w: World, side: Side, e: FlowEvent, luck: Luck, i: nat, pending: nat)
    requires WorldOk(u, w) && JoinerSession(u, w, side.session, pending) && JoinerStore(u, w, side.store)
    requires H.EventOk(u, w, e) && !e.Joined? && !e.Paired? && (e.SignedAnswer? ==> pending == 1)
    ensures JoinerDriven(u, w, Handle(u.env, u.joinerNetwork, u.device, side, w, e, luck, i),
              if e.SignedAnswer? then 0 else pending)
  {
    match e
    case SignedAnswer(grant) => JoinerFinishes(u, w, side, grant, luck, i);
    case Offered => JoinerSendsJoin(u, w, side, luck, i, pending);
    case _ =>
  }

  lemma JoinerEventsStay(u: Setup, w: World, w': World, role: Role, events: seq<FlowEvent>)
    requires JoinerEvents(u, w, events) && Extends(w, w', role)
    ensures JoinerEvents(u, w', events)
  {
    forall e | e in events ensures H.EventOk(u, w', e) {
      if e.SignedAnswer? {
        ExtendsMember(w, w', role, Posted(Creator, AnswerMsg(u, e.grant)));
      }
    }
  }

  lemma {:induction false} JoinerHandlesAll(u: Setup, w: World, side: Side, events: seq<FlowEvent>, luck: Luck, i: nat)
    requires WorldOk(u, w) && JoinerSession(u, w, side.session, Answers(events)) && JoinerStore(u, w, side.store)
    requires JoinerEvents(u, w, events)
    ensures JoinerDriven(u, w, HandleAll(u.env, u.joinerNetwork, u.device, side, w, events, luck, i), 0)
    decreases |events|
  {
    if events != [] {
      var d := Handle(u.env, u.joinerNetwork, u.device, side, w, events[0], luck, i);
      JoinerHandles(u, w, side, events[0], luck, i, Answers(events));
      if d.2.Ok? {
        JoinerEventsStay(u, w, d.1, Joiner, events[1..]);
        JoinerHandlesAll(u, d.1, d.0, events[1..], luck, i + 1);
        ExtendsTwice(w, d.1, HandleAll(u.env, u.joinerNetwork, u.device, d.0, d.1, events[1..], luck, i + 1).1, Joiner);
      }
    }
  }

  // ---- the steps of the joiner ----

  ghost predicate JoinerOk(u: Setup, w: World, side: Side) {
    JoinerSession(u, w, side.session, 0) && JoinerStore(u, w, side.store)
  }

  lemma JoinerPumps(u: Setup, w: World, side: Side, batch: seq<RelayMessage>, luck: Luck)
    requires WorldOk(u, w) && JoinerOk(u, w, side) && forall m :: m in batch ==> Readable(u, w, m.payload)
    ensures var d := Pump(u.env, u.joinerNetwork, u.device, side, w, batch, luck);
      WorldOk(u, d.1) && Extends(w, d.1, Joiner) && JoinerOk(u, d.1, d.0)
  {
    JoinerEnds(u, w, side.session, Failed);
    if side.session.Active() && luck(0, FetchMessages) == Works {
      var sorted := SortBySeq(batch);
      CatchUp.SortSorts(batch);
      JoinerAccepts(u, w, side.session, sorted, 0);
      match Accept(u.env, side.session, batch)
      case (s, Err(_)) => JoinerEnds(u, w, s, Failed);
      case (s, Ok(events)) => JoinerHandlesAll(u, w, side.(session := s), events, luck, 1);
    }
  }

  /** The typed code is in the history; the session takes it. */
  lemma JoinerTypes(u: Setup, w: World, s: Session, typed: string)
    requires JoinerSession(u, w, s, 0) && Typed(Joiner, typed) in w.history
    ensures var (s', r) := Confirm(u.env, s, typed); JoinerSession(u, w, s', 0) && (r.Ok? ==> r.value.None?)
  {
    JoinerEnds(u, w, s, WrongCode);
  }

  lemma JoinerConfirmsNoted(u: Setup, w: World, side: Side, typed: string, luck: Luck)
    requires WorldOk(u, w) && JoinerOk(u, w, side) && Typed(Joiner, typed) in w.history
    ensures var d := ConfirmPrepared(u.env, side, w, typed, luck);
      WorldOk(u, d.1) && Extends(w, d.1, Joiner) && JoinerOk(u, d.1, d.0)
  {
    JoinerTypes(u, w, side.session, typed);
    var (s, r) := Confirm(u.env, side.session, typed);
    if r.Ok? {
      JoinerSendsJoin(u, w, side.(session := s), luck, 1, 0);
    }
  }

  lemma JoinerConfirms(u: Setup, w: World, side: Side, typed: string, luck: Luck)
    requires WorldOk(u, w) && JoinerOk(u, w, side)
    ensures var d := ConfirmCode(u.env, side, w, typed, luck);
      WorldOk(u, d.1) && Extends(w, d.1, Joiner) && JoinerOk(u, d.1, d.0)
  {
    var w0 := Note(w, Typed(Joiner, typed));
    NoteKeeps(u, w, Typed(Joiner, typed));
    JoinerFlagsStay(u, w, w0, Joiner, side.session);
    JoinerStoreStays(u, w, w0, side.store);
    JoinerConfirmsNoted(u, w0, side, typed, luck);
    ExtendsTwice(w, w0, ConfirmPrepared(u.env, side, w0, typed, luck).1, Joiner);
  }

  /** Whatever the joiner does next, both it and the world stay in order. */
  lemma JoinerStep(u: Setup, w: World, side: Side, step: Step)
    requires WorldOk(u, w) && JoinerOk(u, w, side) && !step.JoinStep?
    requires step.PumpStep? ==> forall m :: m in step.batch ==> Readable(u, w, m.payload)
    ensures var (side', w') := SideStep(u, u.joinerNetwork, side, w, step);
      WorldOk(u, w') && Extends(w, w', Joiner) && JoinerOk(u, w', side')
  {
    match step
    case PumpStep(_, batch, luck) => JoinerPumps(u, w, side, batch, luck);
    case ConfirmStep(_, typed, luck) => JoinerConfirms(u, w, side, typed, luck);
    case CancelStep(_, luck) => JoinerEnds(u, w, side.session, Cancelled);
    case TickStep(_, now, luck) => JoinerEnds(u, w, side.session, Timeout);
    case ClosedStep(_, reason, luck) => JoinerEnds(u, w, side.session, Closed(reason));
  }

  /** What the holder does leaves the joiner in order. */
  lemma JoinerUntouched(u: Setup, w: World, w': World, side: Side)
    requires JoinerOk(u, w, side) && Extends(w, w', Creator)
    ensures JoinerOk(u, w', side)
  {
    JoinerFlagsStay(u, w, w', Creator, side.session);
    JoinerStoreStays(u, w, w', side.store);
  }
}
