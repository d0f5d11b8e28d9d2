/** The one honest conversation of a pairing, and what must have happened before each thing that happens. */
module PairingHistory {
  import opened Base
  import opened Devices
  import opened Grants
  import opened PairingTypes
  import opened PairingSpec
  import opened PairingDriver
  import Text
  import W = Wire

  function Cid(u: Setup): ChannelId {
    ChannelId(u.holderKey, u.joinerKey)
  }

  function Code(u: Setup): CheckCode {
    u.env.code(Cid(u))
  }

  function MasterKey(u: Setup): string {
    match u.master case Some(master) => master.ed25519 case None => ""
  }

  function IdSignature(u: Setup): Signature {
    Sign(u.device, W.IdText(u.device.curve25519, MasterKey(u)))
  }

  function OfferMsg(u: Setup): Message {
    Offer(WIRE_VERSION, [WireNetwork(u.holderNetwork, MasterKey(u))], [])
  }

  function JoinMsg(u: Setup): Message {
    Join(WIRE_VERSION, [WireJoined(u.holderNetwork, u.device.curve25519, u.device.ed25519, IdSignature(u))], [])
  }

  function AnswerMsg(u: Setup, grant: Grant): Message {
    SignedMessage(u.holderNetwork, grant)
  }

  function DoneMsg(u: Setup): Message {
    Done(WIRE_VERSION, [u.holderNetwork])
  }

  function HelloPayload(u: Setup): Payload {
    Initial(u.holderKey, u.joinerKey, Json(Hello(WIRE_VERSION)), u.std)
  }

  /** The typed text reads as the check code of the channel. */
  predicate RightCode(u: Setup, text: string) {
    Text.ParseU8(Text.Trim(text)) == Some(Code(u))
  }

  ghost predicate TypedRight(u: Setup, history: seq<Happening>, role: Role) {
    exists text :: RightCode(u, text) && Typed(role, text) in history
  }

  /** The grant is the one that the holder builds from its own list for the device that joins. */
  ghost predicate HolderGrant(u: Setup, grant: Grant) {
    u.master.Some? && u.list.Some? && BuildGrant(u.master.value, u.list.value, u.device.ed25519) == Ok(grant)
  }

  predicate IsRefusal(m: Message) {
    m.Signed? && m.signed == []
  }

  /** `e` may happen after `before`. */
  ghost predicate Caused(u: Setup, before: seq<Happening>, e: Happening) {
    match e
    case Typed(_, _) => true
    case Posted(Creator, m) =>
      || (m == OfferMsg(u) && TypedRight(u, before, Creator))
      || (IsRefusal(m) && Posted(Joiner, JoinMsg(u)) in before)
      || (exists grant: Grant :: m == AnswerMsg(u, grant) && Put(grant) in before && Kept(Creator, grant.list) in before)
    case Posted(Joiner, m) =>
      || m == Hello(WIRE_VERSION)
      || (m == JoinMsg(u) && TypedRight(u, before, Joiner) && Posted(Creator, OfferMsg(u)) in before)
      || (m == DoneMsg(u) && exists grant: Grant :: Put(grant) in before && KeptCertificate(grant.certificate) in before)
    case Put(grant) =>
      HolderGrant(u, grant) && Posted(Joiner, JoinMsg(u)) in before && (forall g :: Put(g) !in before)
    case Kept(Creator, list) => exists grant: Grant :: list == grant.list && Put(grant) in before
    case Kept(Joiner, list) =>
      exists grant: Grant :: list == grant.list && Put(grant) in before && Posted(Creator, AnswerMsg(u, grant)) in before
    case KeptCertificate(certificate) =>
      exists grant: Grant :: certificate == grant.certificate && Put(grant) in before && Kept(Joiner, grant.list) in before
    case Finishes(_) => Posted(Joiner, DoneMsg(u)) in before
  }

  ghost predicate Causal(u: Setup, history: seq<Happening>) {
    forall i {:trigger Caused(u, history[..i], history[i])} :: 0 <= i < |history| ==> Caused(u, history[..i], history[i])
  }

  lemma CausalAppend(u: Setup, history: seq<Happening>, e: Happening)
    requires Causal(u, history) && Caused(u, history, e)
    ensures Causal(u, history + [e])
  {
    var longer := history + [e];
    forall i | 0 <= i < |longer| ensures Caused(u, longer[..i], longer[i]) {
      if i < |history| {
        assert longer[..i] == history[..i];
        assert Caused(u, history[..i], history[i]);
      } else {
        assert longer[..i] == history;
      }
    }
  }

  lemma PutIsFirst(u: Setup, history: seq<Happening>, i: nat)
    requires Causal(u, history) && i < |history| && history[i].Put?
    ensures forall j :: 0 <= j < i ==> !history[j].Put?
  {
    assert Caused(u, history[..i], history[i]);
    forall j | 0 <= j < i ensures !history[j].Put? {
      assert history[..i][j] == history[j];
    }
  }

  /** In a causal history the server takes the list of one grant only. */
  lemma OnePut(u: Setup, history: seq<Happening>, a: Grant, b: Grant)
    requires Causal(u, history) && Put(a) in history && Put(b) in history
    ensures a == b
  {
    var i :| 0 <= i < |history| && history[i] == Put(a);
    var j :| 0 <= j < |history| && history[j] == Put(b);
    PutIsFirst(u, history, i);
    PutIsFirst(u, history, j);
  }

  // ---- what came before ----

  lemma CauseOfOffer(u: Setup, h: seq<Happening>, i: nat)
    requires Causal(u, h) && i < |h| && h[i] == Posted(Creator, OfferMsg(u))
    ensures TypedRight(u, h[..i], Creator)
  {
    assert Caused(u, h[..i], h[i]);
  }

  lemma CauseOfJoin(u: Setup, h: seq<Happening>, i: nat)
    requires Causal(u, h) && i < |h| && h[i] == Posted(Joiner, JoinMsg(u))
    ensures TypedRight(u, h[..i], Joiner) && Posted(Creator, OfferMsg(u)) in h[..i]
  {
    assert Caused(u, h[..i], h[i]);
  }

  lemma CauseOfPut(u: Setup, h: seq<Happening>, i: nat)
    requires Causal(u, h) && i < |h| && h[i].Put?
    ensures HolderGrant(u, h[i].grant) && Posted(Joiner, JoinMsg(u)) in h[..i]
  {
    assert Caused(u, h[..i], h[i]);
  }

  lemma CauseOfKept(u: Setup, h: seq<Happening>, i: nat, grant: Grant)
    requires Causal(u, h) && i < |h| && h[i] == Kept(Creator, grant.list) && Put(grant) in h
    ensures Put(grant) in h[..i]
  {
    assert Caused(u, h[..i], h[i]);
    var g: Grant :| grant.list == g.list && Put(g) in h[..i];
    OnePut(u, h, grant, g);
  }

  lemma CauseOfAnswer(u: Setup, h: seq<Happening>, i: nat, grant: Grant)
    requires Causal(u, h) && i < |h| && h[i] == Posted(Creator, AnswerMsg(u, grant)) && Put(grant) in h
    ensures Put(grant) in h[..i] && Kept(Creator, grant.list) in h[..i]
  {
    assert Caused(u, h[..i], h[i]);
    var g: Grant :| h[i].message == AnswerMsg(u, g) && Put(g) in h[..i] && Kept(Creator, g.list) in h[..i];
    OnePut(u, h, grant, g);
  }

  lemma CauseOfJoinerKept(u: Setup, h: seq<Happening>, i: nat, grant: Grant)
    requires Causal(u, h) && i < |h| && h[i] == Kept(Joiner, grant.list) && Put(grant) in h
    ensures Posted(Creator, AnswerMsg(u, grant)) in h[..i]
  {
    assert Caused(u, h[..i], h[i]);
    var g: Grant :| grant.list == g.list && Put(g) in h[..i] && Posted(Creator, AnswerMsg(u, g)) in h[..i];
    OnePut(u, h, grant, g);
  }

  lemma CauseOfCertificate(u: Setup, h: seq<Happening>, i: nat, grant: Grant)
    requires Causal(u, h) && i < |h| && h[i] == KeptCertificate(grant.certificate) && Put(grant) in h
    ensures Kept(Joiner, grant.list) in h[..i]
  {
    assert Caused(u, h[..i], h[i]);
    var g: Grant :| grant.certificate == g.certificate && Put(g) in h[..i] && Kept(Joiner, g.list) in h[..i];
    OnePut(u, h, grant, g);
  }

  lemma CauseOfDone(u: Setup, h: seq<Happening>, i: nat) returns (grant: Grant)
    requires Causal(u, h) && i < |h| && h[i] == Posted(Joiner, DoneMsg(u))
    ensures Put(grant) in h[..i] && KeptCertificate(grant.certificate) in h[..i]
  {
    assert Caused(u, h[..i], h[i]);
    grant :| Put(grant) in h[..i] && KeptCertificate(grant.certificate) in h[..i];
  }

  // ---- the relay ----

  ghost predicate Shape(u: Setup, w: World, m: RelayMessage) {
    match m.from
    case Joiner =>
      || m.payload == HelloPayload(u)
      || m.payload == Sealed(Cid(u), Joiner, 1, Json(JoinMsg(u)))
      || m.payload == Sealed(Cid(u), Joiner, 2, Json(DoneMsg(u)))
    case Creator =>
      || (m.payload == Sealed(Cid(u), Creator, 0, Json(OfferMsg(u))) && u.master.Some?)
      || (m.payload == Sealed(Cid(u), Creator, 1, Json(MessageOf(m.payload))) && IsRefusal(MessageOf(m.payload)))
      || (w.grant.Some? && m.payload == Sealed(Cid(u), Creator, 1, Json(AnswerMsg(u, w.grant.value))))
  }

  ghost predicate MessageOk(u: Setup, w: World, m: RelayMessage) {
    Posted(m.from, MessageOf(m.payload)) in w.history && Shape(u, w, m)
  }

  /** A message that the channel of the two devices opens is one of theirs. */
  ghost predicate Readable(u: Setup, w: World, p: Payload) {
    p.Sealed? && p.id == Cid(u) ==> MessageOk(u, w, RelayMessage(0, p.from, p))
  }

  /** An initial message to the holder comes from the joiner. */
  predicate FromJoiner(u: Setup, p: Payload) {
    p.Initial? && p.creatorKey == u.holderKey ==> p.joinerKey == u.joinerKey
  }

  lemma RelayIsReadable(u: Setup, w: World, m: RelayMessage)
    requires WorldOk(u, w) && m in w.relay
    ensures Readable(u, w, m.payload) && FromJoiner(u, m.payload)
  {
    assert MessageOk(u, w, m);
  }

  ghost predicate RelayOk(u: Setup, w: World) {
    forall m :: m in w.relay ==> MessageOk(u, w, m)
  }

  ghost predicate GrantOk(u: Setup, w: World) {
    && (w.grant.Some? ==> HolderGrant(u, w.grant.value) && Put(w.grant.value) in w.history)
    && (forall g :: Put(g) in w.history ==> w.grant == Some(g))
  }

  ghost predicate WorldOk(u: Setup, w: World) {
    Causal(u, w.history) && RelayOk(u, w) && GrantOk(u, w)
  }

  /** The device that did it. */
  function Doer(e: Happening): Role {
    match e
    case Typed(role, _) => role
    case Posted(role, _) => role
    case Put(_) => Creator
    case Kept(role, _) => role
    case KeptCertificate(_) => Joiner
    case Finishes(role) => role
  }

  /** From `w` to `w'` only the device `role` did something. */
  ghost predicate Extends(w: World, w': World, role: Role) {
    && w.history <= w'.history
    && w.relay <= w'.relay
    && (w.grant.Some? ==> w'.grant == w.grant)
    && (role == Joiner ==> w'.grant == w.grant)
    && (forall e :: e in w'.history && e !in w.history ==> Doer(e) == role)
  }

  lemma ExtendsMember(w: World, w': World, role: Role, e: Happening)
    requires Extends(w, w', role) && e in w.history
    ensures e in w'.history
  {
    var i :| 0 <= i < |w.history| && w.history[i] == e;
    assert w'.history[i] == e;
  }

  lemma ExtendsTwice(a: World, b: World, c: World, role: Role)
    requires Extends(a, b, role) && Extends(b, c, role)
    ensures Extends(a, c, role)
  {
  }

  lemma TypedStays(u: Setup, w: World, w': World, role: Role, who: Role)
    requires Extends(w, w', role) && TypedRight(u, w.history, who)
    ensures TypedRight(u, w'.history, who)
  {
    var text :| RightCode(u, text) && Typed(who, text) in w.history;
    ExtendsMember(w, w', role, Typed(who, text));
  }

  /** One thing more happens. */
  lemma NoteKeeps(u: Setup, w: World, e: Happening)
    requires WorldOk(u, w) && Caused(u, w.history, e) && !e.Put?
    ensures WorldOk(u, Note(w, e)) && Extends(w, Note(w, e), Doer(e))
  {
    CausalAppend(u, w.history, e);
    var w' := Note(w, e);
    forall g | Put(g) in w'.history ensures w'.grant == Some(g) {
      assert Put(g) in w.history;
    }
    forall m | m in w'.relay ensures MessageOk(u, w', m) {
      assert MessageOk(u, w, m);
    }
  }

  /** The server takes the list of the grant. */
  lemma PutKeeps(u: Setup, w: World, grant: Grant)
    requires WorldOk(u, w) && w.grant.None? && HolderGrant(u, grant) && Posted(Joiner, JoinMsg(u)) in w.history
    ensures var w' := Note(w.(grant := Some(grant)), Put(grant));
      WorldOk(u, w') && Extends(w, w', Creator)
  {
    var w' := Note(w.(grant := Some(grant)), Put(grant));
    CausalAppend(u, w.history, Put(grant));
    forall m | m in w'.relay ensures MessageOk(u, w', m) {
      assert MessageOk(u, w, m);
    }
    forall g | Put(g) in w'.history ensures w'.grant == Some(g) {
      assert Put(g) in w.history || g == grant;
    }
  }

  /** A message enters the relay. */
  lemma AppendKeeps(u: Setup, w: World, role: Role, payload: Payload)
    requires WorldOk(u, w)
    requires Caused(u, w.history, Posted(role, MessageOf(payload)))
    requires Shape(u, w, RelayMessage(|w.relay| + 1, role, payload))
    ensures WorldOk(u, Append(w, role, payload)) && Extends(w, Append(w, role, payload), role)
    ensures Posted(role, MessageOf(payload)) in Append(w, role, payload).history
  {
    var e := Posted(role, MessageOf(payload));
    NoteKeeps(u, w, e);
    var w' := Append(w, role, payload);
    assert w'.history == Note(w, e).history;
    forall m | m in w'.relay ensures MessageOk(u, w', m) {
      if m in w.relay {
        assert MessageOk(u, Note(w, e), m);
      }
    }
  }

  lemma PostKeeps(u: Setup, w: World, role: Role, out: Outgoing, outcome: Outcome)
    requires WorldOk(u, w)
    requires Caused(u, w.history, Posted(role, MessageOf(out.payload)))
    requires Shape(u, w, RelayMessage(|w.relay| + 1, role, out.payload))
    ensures var (w', r) := Post(u.env, w, role, out, outcome);
      && WorldOk(u, w') && Extends(w, w', role) && w'.grant == w.grant
      && (r.Ok? ==> Posted(role, MessageOf(out.payload)) in w'.history)
  {
    AppendKeeps(u, w, role, out.payload);
  }
}
