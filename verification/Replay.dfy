/** The window of ids that were accepted from each remote device. */
module Replay {

  const REPLAY_WINDOW: nat := 256

  const NUL: char := 0 as char

  predicate NulFree(s: string) {
    NUL !in s
  }

  /** One text for a network, a nickname and a device of it. */
  function PeerDeviceKey(network: string, nick: string, did: string): string {
    network + [NUL] + nick + [NUL] + did
  }

  /** The key spells network, nickname and `did` in this order, with the character of number 0 between them. */
  lemma KeySpells(network: string, nick: string, did: string)
    ensures var key, a, b := PeerDeviceKey(network, nick, did), |network|, |network| + 1 + |nick|;
      && |key| == b + 1 + |did|
      && key[..a] == network && key[a] as int == 0 && key[a + 1..b] == nick && key[b] as int == 0 && key[b + 1..] == did
  {
  }

  lemma CutAtNul(a: string, restA: string, b: string, restB: string)
    requires NulFree(a) && NulFree(b) && a + [NUL] + restA == b + [NUL] + restB
    ensures a == b && restA == restB
  {
    var s := a + [NUL] + restA;
    assert s[|a|] == NUL && s[|b|] == NUL;
    assert forall i :: 0 <= i < |a| ==> s[i] == a[i] && a[i] in a;
    assert forall i :: 0 <= i < |b| ==> s[i] == b[i] && b[i] in b;
    assert a == s[..|a|] && b == s[..|b|];
    assert restA == s[|a| + 1..] && restB == s[|b| + 1..];
  }

  /** Devices of networks and nicknames without NUL never share a key. */
  lemma KeyInjective(n1: string, k1: string, d1: string, n2: string, k2: string, d2: string)
    requires NulFree(n1) && NulFree(k1) && NulFree(n2) && NulFree(k2)
    requires PeerDeviceKey(n1, k1, d1) == PeerDeviceKey(n2, k2, d2)
    ensures n1 == n2 && k1 == k2 && d1 == d2
  {
    assert PeerDeviceKey(n1, k1, d1) == n1 + [NUL] + (k1 + [NUL] + d1);
    assert PeerDeviceKey(n2, k2, d2) == n2 + [NUL] + (k2 + [NUL] + d2);
    CutAtNul(n1, k1 + [NUL] + d1, n2, k2 + [NUL] + d2);
    CutAtNul(k1, d1, k2, d2);
  }

  /** Another network and nickname, with a `did` without NUL, have the key of this device. */
  ghost predicate Shares(network: string, nick: string, did: string, n: string, k: string, d: string) {
    NulFree(d) && (n, k, d) != (network, nick, did) && PeerDeviceKey(n, k, d) == PeerDeviceKey(network, nick, did)
  }

  lemma CutFirstNul(s: string) returns (before: string, after: string)
    requires !NulFree(s)
    ensures s == before + [NUL] + after
  {
    var i :| 0 <= i < |s| && s[i] == NUL;
    before, after := s[..i], s[i + 1..];
  }

  /** A NUL in the network or in the nickname moves to the other one. */
  lemma NulShares(network: string, nick: string, did: string) returns (n: string, k: string)
    requires NulFree(did) && !(NulFree(network) && NulFree(nick))
    ensures Shares(network, nick, did, n, k, did)
  {
    if !NulFree(network) {
      var a, b := CutFirstNul(network);
      n, k := a, b + [NUL] + nick;
      assert PeerDeviceKey(n, k, did) == a + [NUL] + b + [NUL] + nick + [NUL] + did;
      assert |n| < |network|;
    } else {
      var a, b := CutFirstNul(nick);
      n, k := network + [NUL] + a, b;
      assert PeerDeviceKey(n, k, did) == network + [NUL] + a + [NUL] + b + [NUL] + did;
      assert PeerDeviceKey(network, nick, did) == network + [NUL] + a + [NUL] + b + [NUL] + did;
      assert |network| < |n|;
    }
  }

  function Nuls(s: string): nat {
    multiset(s)[NUL]
  }

  lemma NulsOfKey(network: string, nick: string, did: string)
    ensures Nuls(PeerDeviceKey(network, nick, did)) == Nuls(network) + Nuls(nick) + Nuls(did) + 2
    ensures NulFree(network) <==> Nuls(network) == 0
    ensures NulFree(nick) <==> Nuls(nick) == 0
    ensures NulFree(did) <==> Nuls(did) == 0
  {
  }

  /**
   * A device with a `did` without NUL, as every `did` is, shares its key with no other such device exactly
   * when neither its network nor its nickname holds a NUL.
   */
  lemma KeyIsItsOwn(network: string, nick: string, did: string)
    requires NulFree(did)
    ensures (forall n, k, d :: !Shares(network, nick, did, n, k, d)) <==> NulFree(network) && NulFree(nick)
  {
    if NulFree(network) && NulFree(nick) {
      forall n, k, d ensures !Shares(network, nick, did, n, k, d) {
        if NulFree(d) && PeerDeviceKey(n, k, d) == PeerDeviceKey(network, nick, did) {
          NulsOfKey(network, nick, did);
          NulsOfKey(n, k, d);
          KeyInjective(n, k, d, network, nick, did);
        }
      }
    } else {
      var n, k := NulShares(network, nick, did);
    }
  }

  /** Two possible arguments that share a key: a NUL in the nickname of one and in the network of the other. */
  lemma NulSharesKey(did: string)
    ensures PeerDeviceKey("a", "b" + [NUL] + "c", did) == PeerDeviceKey("a" + [NUL] + "b", "c", did)
  {
    assert PeerDeviceKey("a", "b" + [NUL] + "c", did) == "a" + [NUL] + "b" + [NUL] + "c" + [NUL] + did;
  }

  type Windows = map<string, seq<string>>

  function SeenAt(seen: Windows, key: string): seq<string> {
    if key in seen then seen[key] else []
  }

  /** Accepts an id that is not in the window of its key; the window keeps its newest ids. */
  function Record(seen: Windows, key: string, id: string): (Windows, bool) {
    var known := SeenAt(seen, key);
    if id in known then (seen, false)
    else
      var longer := known + [id];
      (seen[key := if |longer| > REPLAY_WINDOW then longer[1..] else longer], true)
  }

  datatype Kind = FirstMessage | NewSession

  datatype Ask = Ask(kind: Kind, network: string, nick: string, did: string, id: string)

  function KeyOf(ask: Ask): string {
    PeerDeviceKey(ask.network, ask.nick, ask.did)
  }

  /** The windows of both kinds. */
  datatype State = State(firstMessages: Windows, sessions: Windows)

  const EMPTY: State := State(map[], map[])

  function Of(s: State, kind: Kind): Windows {
    if kind == FirstMessage then s.firstMessages else s.sessions
  }

  function Next(s: State, ask: Ask): (State, bool) {
    var (seen, ok) := Record(Of(s, ask.kind), KeyOf(ask), ask.id);
    (if ask.kind == FirstMessage then s.(firstMessages := seen) else s.(sessions := seen), ok)
  }

  class ReplayState {
    var firstMessages: Windows
    var sessions: Windows

    constructor ()
      ensures Contents() == EMPTY
    {
      firstMessages := map[];
      sessions := map[];
    }

    ghost function Contents(): State
      reads this
    {
      State(firstMessages, sessions)
    }

    method AcceptFirstMessage(network: string, nick: string, did: string, msgid: string) returns (ok: bool)
      modifies this
      ensures (Contents(), ok) == Next(old(Contents()), Ask(FirstMessage, network, nick, did, msgid))
    {
      var seen;
      seen, ok := RecordId(firstMessages, PeerDeviceKey(network, nick, did), msgid);
      firstMessages := seen;
    }

    method AcceptNewSession(network: string, nick: string, did: string, sessionId: string) returns (ok: bool)
      modifies this
      ensures (Contents(), ok) == Next(old(Contents()), Ask(NewSession, network, nick, did, sessionId))
    {
      var seen;
      seen, ok := RecordId(sessions, PeerDeviceKey(network, nick, did), sessionId);
      sessions := seen;
    }
  }

  method RecordId(seen: Windows, key: string, id: string) returns (seen': Windows, ok: bool)
    ensures (seen', ok) == Record(seen, key, id)
  {
    var known := if key in seen then seen[key] else [];
    var i := 0;
    while i < |known|
      invariant i <= |known| && id !in known[..i]
    {
      if known[i] == id {
        return seen, false;
      }
      i := i + 1;
    }
    assert known[..i] == known;
    known := known + [id];
    if |known| > REPLAY_WINDOW {
      known := known[1..];
    }
    return seen[key := known], true;
  }

  // ---- against the history ----

  datatype Answered = Answered(ask: Ask, ok: bool)

  predicate SameDevice(a: Ask, b: Ask) {
    a.kind == b.kind && a.network == b.network && a.nick == b.nick && a.did == b.did
  }

  /** The ids accepted for the device and kind of `ask`, oldest first. */
  function AcceptedFor(log: seq<Answered>, ask: Ask): seq<string> {
    if log == [] then []
    else
      var last := log[|log| - 1];
      AcceptedFor(log[..|log| - 1], ask) + (if last.ok && SameDevice(last.ask, ask) then [last.ask.id] else [])
  }

  /** The last 256 ids. */
  function Newest(ids: seq<string>): seq<string> {
    if |ids| > 256 then ids[|ids| - 256..] else ids
  }

  function Run(asks: seq<Ask>): (State, seq<Answered>) {
    if asks == [] then (EMPTY, [])
    else
      var (s, log) := Run(asks[..|asks| - 1]);
      var (s', ok) := Next(s, asks[|asks| - 1]);
      (s', log + [Answered(asks[|asks| - 1], ok)])
  }

  predicate Clean(ask: Ask) {
    NulFree(ask.network) && NulFree(ask.nick)
  }

  /** The window of every device is the newest of its accepted ids. */
  ghost predicate Exact(s: State, log: seq<Answered>) {
    forall ask {:trigger AcceptedFor(log, ask)} ::
      Clean(ask) ==> SeenAt(Of(s, ask.kind), KeyOf(ask)) == Newest(AcceptedFor(log, ask))
  }

  lemma AcceptedAfter(log: seq<Answered>, a: Answered, ask: Ask)
    ensures AcceptedFor(log + [a], ask) ==
      AcceptedFor(log, ask) + (if a.ok && SameDevice(a.ask, ask) then [a.ask.id] else [])
  {
    assert (log + [a])[..|log|] == log;
  }

  lemma NewestAfter(ids: seq<string>, id: string)
    ensures Newest(ids + [id]) == (var longer := Newest(ids) + [id]; if |longer| > REPLAY_WINDOW then longer[1..] else longer)
  {
  }

  /** What one question does to the window of any device. */
  lemma NextExact(s: State, log: seq<Answered>, asked: Ask)
    requires Exact(s, log) && Clean(asked)
    ensures var (s', ok) := Next(s, asked);
      && (ok <==> asked.id !in Newest(AcceptedFor(log, asked)))
      && Exact(s', log + [Answered(asked, ok)])
  {
    var (s', ok) := Next(s, asked);
    var log' := log + [Answered(asked, ok)];
    assert SeenAt(Of(s, asked.kind), KeyOf(asked)) == Newest(AcceptedFor(log, asked));
    forall ask | Clean(ask) ensures SeenAt(Of(s', ask.kind), KeyOf(ask)) == Newest(AcceptedFor(log', ask)) {
      AcceptedAfter(log, Answered(asked, ok), ask);
      if SameDevice(asked, ask) {
        SameAccepted(log, asked, ask);
        NewestAfter(AcceptedFor(log, asked), asked.id);
        assert AcceptedFor(log, ask) + [] == AcceptedFor(log, ask);
      } else {
        OtherKept(s, asked, ask);
        assert AcceptedFor(log, ask) + [] == AcceptedFor(log, ask);
      }
    }
  }

  lemma {:induction false} SameAccepted(log: seq<Answered>, a: Ask, b: Ask)
    requires SameDevice(a, b)
    ensures AcceptedFor(log, a) == AcceptedFor(log, b)
  {
    if log != [] {
      SameAccepted(log[..|log| - 1], a, b);
    }
  }

  /** A question leaves every other device and the other kind alone. */
  lemma OtherKept(s: State, asked: Ask, other: Ask)
    requires Clean(asked) && Clean(other) && !SameDevice(asked, other)
    ensures SeenAt(Of(Next(s, asked).0, other.kind), KeyOf(other)) == SeenAt(Of(s, other.kind), KeyOf(other))
  {
    if asked.kind == other.kind && KeyOf(asked) == KeyOf(other) {
      KeyInjective(asked.network, asked.nick, asked.did, other.network, other.nick, other.did);
    }
  }

  predicate AllClean(asks: seq<Ask>) {
    forall i :: 0 <= i < |asks| ==> Clean(asks[i])
  }

  lemma {:induction false} RunExact(asks: seq<Ask>)
    requires AllClean(asks)
    ensures Exact(Run(asks).0, Run(asks).1)
    decreases |asks|
  {
    if asks == [] {
      forall ask: Ask ensures SeenAt(Of(EMPTY, ask.kind), KeyOf(ask)) == Newest(AcceptedFor([], ask)) {
      }
    } else {
      RunExact(asks[..|asks| - 1]);
      NextExact(Run(asks[..|asks| - 1]).0, Run(asks[..|asks| - 1]).1, asks[|asks| - 1]);
    }
  }

  lemma {:induction false} AnswersStay(asks: seq<Ask>, k: nat)
    requires k <= |asks|
    ensures |Run(asks).1| == |asks| && Run(asks).1[..k] == Run(asks[..k]).1
    ensures k < |asks| ==> Run(asks).1[k].ask == asks[k]
    decreases |asks|
  {
    if k < |asks| {
      var init := asks[..|asks| - 1];
      AnswersStay(init, k);
      assert init[..k] == asks[..k];
      assert Run(asks).1[..k] == Run(init).1[..k];
    } else {
      assert asks[..k] == asks;
      if asks != [] {
        AnswersStay(asks[..|asks| - 1], |asks| - 1);
      }
    }
  }

  /** An id is accepted exactly when it is not among the last 256 ids accepted for its device and kind. */
  lemma WindowIsExact(asks: seq<Ask>, k: nat)
    requires AllClean(asks) && k < |asks|
    ensures |Run(asks).1| == |asks|
    ensures Run(asks).1[k].ok <==> asks[k].id !in Newest(AcceptedFor(Run(asks).1[..k], asks[k]))
  {
    AnswersStay(asks, k + 1);
    AnswersStay(asks, k);
    var part := asks[..k + 1];
    assert part[..k] == asks[..k];
    RunExact(asks[..k]);
    NextExact(Run(asks[..k]).0, Run(asks[..k]).1, asks[k]);
    assert Run(asks).1[k] == Run(asks).1[..k + 1][k];
  }

  // ---- the distance of two acceptances ----

  lemma InNewest(ids: seq<string>, p: nat)
    requires p < |ids| && |ids| - p <= REPLAY_WINDOW
    ensures ids[p] in Newest(ids)
  {
    if |ids| > REPLAY_WINDOW {
      assert Newest(ids)[p - (|ids| - REPLAY_WINDOW)] == ids[p];
    }
  }

  lemma {:induction false} AcceptedGrows(log: seq<Answered>, i: nat, ask: Ask)
    requires i <= |log|
    ensures |AcceptedFor(log[..i], ask)| <= |AcceptedFor(log, ask)|
    ensures AcceptedFor(log, ask)[..|AcceptedFor(log[..i], ask)|] == AcceptedFor(log[..i], ask)
    decreases |log|
  {
    if i == |log| {
      assert log[..i] == log;
    } else {
      var init := log[..|log| - 1];
      AcceptedGrows(init, i, ask);
      assert init[..i] == log[..i];
    }
  }

  /**
   * Two acceptances of one id for one device and kind are at least 256 other acceptances of it apart: at the
   * second one, 257 or more ids of the device have been accepted since before the first.
   */
  lemma AcceptedTwiceFarApart(asks: seq<Ask>, i: nat, j: nat)
    requires AllClean(asks) && i < j < |asks| && SameDevice(asks[i], asks[j]) && asks[i].id == asks[j].id
    requires |Run(asks).1| == |asks| && Run(asks).1[i].ok && Run(asks).1[j].ok
    ensures var log := Run(asks).1;
      |AcceptedFor(log[..j], asks[j])| - |AcceptedFor(log[..i + 1], asks[j])| >= 256
  {
    var log := Run(asks).1;
    AnswersStay(asks, i);
    var ids := AcceptedFor(log[..j], asks[j]);
    var upTo := AcceptedFor(log[..i + 1], asks[j]);
    AcceptedAfter(log[..i], log[i], asks[j]);
    assert log[..i + 1] == log[..i] + [log[i]];
    AcceptedGrows(log[..j], i + 1, asks[j]);
    assert log[..j][..i + 1] == log[..i + 1];
    assert upTo[|upTo| - 1] == asks[j].id;
    assert ids[..|upTo|][|upTo| - 1] == ids[|upTo| - 1] == asks[j].id;
    if |ids| - |upTo| < REPLAY_WINDOW {
      InNewest(ids, |upTo| - 1);
    }
    WindowIsExact(asks, j);
  }
}
