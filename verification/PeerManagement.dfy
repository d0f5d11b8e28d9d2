/** What one remote user's devices are: the list that is held, the keys that are revoked, and the SAS. */
module PeerManagement {
  import opened Base
  import opened Devices
  import opened Filters
  import C = ListChecks
  import W = Wire

  datatype ManageError = E2e(error: E2eError) | MasterChanged | RevokedKey | Unverified

  datatype Directory = Directory(master: string, verified: bool, list: StoredList, revoked: seq<string>)

  /** The keys of `held` from `i` on that the new list drops, added to the revoked ones. */
  function Revoke(revoked: seq<string>, held: seq<string>, kept: seq<string>): seq<string>
    decreases |held|
  {
    if held == [] then revoked
    else if held[0] !in kept && held[0] !in revoked then Revoke(revoked + [held[0]], held[1..], kept)
    else Revoke(revoked, held[1..], kept)
  }

  predicate MeetsRevoked(keys: seq<string>, revoked: seq<string>) {
    exists i :: 0 <= i < |keys| && keys[i] in revoked
  }

  function ApplySigned(d: Directory, master: string, list: SignedList): (Directory, Result<W.ListDecision, ManageError>) {
    if master != d.master then (d, Err(MasterChanged))
    else match VerifySignedList(list.version, list.keys, master, list.signature)
    case Err(e) => (d, Err(E2e(e)))
    case Ok(_) =>
      match ApplyList(d.list, list.version, list.keys)
      case (_, Err(e)) => (d, Err(E2e(e)))
      case (next, Ok(decision)) =>
        if decision != W.Replace then (d, Ok(decision))
        else if MeetsRevoked(list.keys, d.revoked) then (d, Err(RevokedKey))
        else (d.(list := next, revoked := Revoke(d.revoked, KeysOf(d.list), list.keys)), Ok(decision))
  }

  function NewMaster(d: Directory, master: string): Directory {
    if W.IsKeyText(master) then Directory(master, false, None, d.revoked) else d
  }

  function AcceptDevice(d: Directory, cert: DeviceCertificate): Result<PeerDevice, ManageError> {
    if !d.verified then Err(Unverified)
    else if cert.master in d.revoked then Err(RevokedKey)
    else match AcceptPeerDevice(cert, KeysOf(d.list))
    case Err(e) => Err(E2e(e))
    case Ok(device) => Ok(device)
  }

  lemma {:induction false} RevokeStep(revoked: seq<string>, held: seq<string>, kept: seq<string>, i: nat)
    requires i < |held|
    ensures Revoke(revoked, held[i..], kept) ==
      if held[i] !in kept && held[i] !in revoked then Revoke(revoked + [held[i]], held[i + 1..], kept)
      else Revoke(revoked, held[i + 1..], kept)
  {
    assert held[i..][1..] == held[i + 1..];
  }

  class PeerDirectory {
    var master: string
    var verified: bool
    var list: ListState
    var revoked: seq<string>

    function State(): Directory
      reads this, list
    {
      Directory(master, verified, list.stored, revoked)
    }

    constructor (m: string)
      requires W.IsKeyText(m)
      ensures State() == Directory(m, false, None, []) && fresh(list)
    {
      master := m;
      verified := false;
      list := new ListState();
      revoked := [];
    }

    method ConfirmSas()
      modifies this
      ensures State() == old(State()).(verified := true)
    {
      verified := true;
    }

    method ApplySignedList(m: string, signed: SignedList) returns (r: Result<W.ListDecision, ManageError>)
      modifies this
      ensures (State(), r) == ApplySigned(old(State()), m, signed)
    {
      if m != master {
        return Err(MasterChanged);
      }
      var check := VerifySignedList(signed.version, signed.keys, m, signed.signature);
      if check.Err? {
        return Err(E2e(check.error));
      }
      var next := new ListState.Clone(list);
      var decision := next.Apply(signed.version, signed.keys);
      if decision.Err? {
        return Err(E2e(decision.error));
      }
      if decision.value == W.Replace {
        if MeetsRevoked(signed.keys, revoked) {
          return Err(RevokedKey);
        }
        RevokeDropped(list.Keys(), signed.keys);
        list := next;
      }
      r := Ok(decision.value);
    }

    /** Revokes the held keys that the new list drops. */
    method RevokeDropped(held: seq<string>, kept: seq<string>)
      modifies this`revoked
      ensures revoked == Revoke(old(revoked), held, kept)
    {
      for i := 0 to |held|
        invariant Revoke(revoked, held[i..], kept) == Revoke(old(revoked), held, kept)
      {
        RevokeStep(revoked, held, kept, i);
        if held[i] !in kept && held[i] !in revoked {
          revoked := revoked + [held[i]];
        }
      }
      assert held[|held|..] == [];
    }

    method AcceptNewMaster(m: string) returns (r: Result<(), ManageError>)
      modifies this
      ensures State() == NewMaster(old(State()), m)
      ensures r == if W.IsKeyText(m) then Ok(()) else Err(E2e(WireFault(W.BadKey)))
    {
      if !W.IsKeyText(m) {
        return Err(E2e(WireFault(W.BadKey)));
      }
      master := m;
      verified := false;
      list := new ListState();
      r := Ok(());
    }

    function Accept(cert: DeviceCertificate): Result<PeerDevice, ManageError>
      reads this, list
    {
      AcceptDevice(State(), cert)
    }
  }

  // ---- what one list changes ----

  function Set(s: seq<string>): set<string> {
    set x | x in s
  }

  lemma {:induction false} RevokeMeans(revoked: seq<string>, held: seq<string>, kept: seq<string>)
    ensures revoked <= Revoke(revoked, held, kept)
    ensures Set(Revoke(revoked, held, kept)) == Set(revoked) + (Set(held) - Set(kept))
    decreases |held|
  {
    if held != [] {
      assert held == [held[0]] + held[1..];
      if held[0] !in kept && held[0] !in revoked {
        RevokeMeans(revoked + [held[0]], held[1..], kept);
        assert revoked <= revoked + [held[0]];
      } else {
        RevokeMeans(revoked, held[1..], kept);
      }
    }
  }

  /** Keys that are held, not kept and not revoked. */
  function IsDropped(revoked: seq<string>, kept: seq<string>): string -> bool {
    (key: string) => key !in kept && key !in revoked
  }

  /** The newly revoked keys come after the others, in the order of the list that held them. */
  lemma {:induction false} RevokedInOrder(revoked: seq<string>, held: seq<string>, kept: seq<string>)
    requires forall i, j :: 0 <= i < j < |held| ==> held[i] != held[j]
    ensures Revoke(revoked, held, kept) == revoked + Filter(held, IsDropped(revoked, kept))
    decreases |held|
  {
    if held != [] {
      var key, rest := held[0], held[1..];
      assert held == [key] + rest && key !in rest;
      FilterConcat([key], rest, IsDropped(revoked, kept));
      FilterAppend([], key, IsDropped(revoked, kept));
      assert [] + [key] == [key];
      if key !in kept && key !in revoked {
        RevokedInOrder(revoked + [key], rest, kept);
        FilterSame(rest, IsDropped(revoked, kept), IsDropped(revoked + [key], kept));
        assert revoked + [key] + Filter(rest, IsDropped(revoked + [key], kept))
            == revoked + ([key] + Filter(rest, IsDropped(revoked, kept)));
      } else {
        RevokedInOrder(revoked, rest, kept);
      }
    }
  }

  /** Why a list is not taken: another master first, then its own faults, then its version, then a revoked key. */
  lemma ListRefused(d: Directory, master: string, list: SignedList)
    ensures var r := ApplySigned(d, master, list).1;
      && (r == Err(MasterChanged) <==> master != d.master)
      && (master == d.master && VerifySignedList(list.version, list.keys, master, list.signature).Err? ==>
            r == Err(E2e(VerifySignedList(list.version, list.keys, master, list.signature).error)))
      && (r == Err(E2e(StaleList)) <==>
            && master == d.master && VerifySignedList(list.version, list.keys, master, list.signature).Ok? && d.list.Some?
            && (list.version < d.list.value.0
                || (list.version == d.list.value.0 && multiset(list.keys) != multiset(d.list.value.1))))
      && (r == Err(RevokedKey) <==>
            && master == d.master && VerifySignedList(list.version, list.keys, master, list.signature).Ok?
            && (d.list.None? || list.version > d.list.value.0) && exists key :: key in list.keys && key in d.revoked)
  {
    VerifiedListMeans(list.version, list.keys, master, list.signature);
    C.SignedListMeans(list.version, list.keys, master, list.signature);
    C.ListStateMeans(d.list, list.version, list.keys);
    if MeetsRevoked(list.keys, d.revoked) {
      var i :| 0 <= i < |list.keys| && list.keys[i] in d.revoked;
      assert list.keys[i] in list.keys;
    }
  }

  /** A new master takes the place of the old one with nothing confirmed and no list; only a key text is taken. */
  lemma NewMasterMeans(d: Directory, master: string)
    ensures NewMaster(d, master) ==
      if W.IsKeyText(master) then d.(master := master, verified := false, list := None) else d
  {
  }

  /** The exact effect of one delivery, whatever it holds. */
  lemma ApplySignedMeans(d: Directory, master: string, list: SignedList)
    ensures var (d', r) := ApplySigned(d, master, list);
      && d'.master == d.master && d'.verified == d.verified && d.revoked <= d'.revoked
      && (r != Ok(W.Replace) ==> d' == d)
      && (r == Ok(W.Replace) <==>
        && master == d.master
        && VerifySignedList(list.version, list.keys, master, list.signature).Ok?
        && (d.list.Some? ==> list.version > d.list.value.0)
        && Set(list.keys) !! Set(d.revoked))
      && (r == Ok(W.Replace) ==>
        && d'.list == Some((list.version, list.keys))
        && Set(d'.revoked) == Set(d.revoked) + (Set(KeysOf(d.list)) - Set(list.keys)))
  {
    RevokeMeans(d.revoked, KeysOf(d.list), list.keys);
    VerifiedListMeans(list.version, list.keys, master, list.signature);
    W.CheckListDevicesMeans(list.keys);
    W.DecideListMeans(d.list, list.version, list.keys);
    if MeetsRevoked(list.keys, d.revoked) {
      var i :| 0 <= i < |list.keys| && list.keys[i] in d.revoked;
      assert list.keys[i] in Set(list.keys) * Set(d.revoked);
    } else {
      forall x | x in Set(list.keys) ensures x !in Set(d.revoked) {
        var i :| 0 <= i < |list.keys| && list.keys[i] == x;
      }
    }
  }

  // ---- every history of a directory ----

  datatype Event = List(master: string, list: SignedList) | Master(key: string) | Sas

  function Apply(d: Directory, e: Event): Directory {
    match e
    case List(master, list) => ApplySigned(d, master, list).0
    case Master(key) => NewMaster(d, key)
    case Sas => d.(verified := true)
  }

  function Run(d: Directory, events: seq<Event>): Directory {
    if events == [] then d else Apply(Run(d, events[..|events| - 1]), events[|events| - 1])
  }

  function New(master: string): Directory {
    Directory(master, false, None, [])
  }

  /** The accepted keys and the earlier revocations of the current master. */
  datatype Epoch = Epoch(seen: set<string>, before: set<string>)

  function EpochOf(d: Directory, events: seq<Event>): Epoch {
    if events == [] then Epoch({}, {})
    else
      var prefix, e := events[..|events| - 1], events[|events| - 1];
      var epoch, now := EpochOf(d, prefix), Run(d, prefix);
      match e
      case Sas => epoch
      case Master(key) => if W.IsKeyText(key) then Epoch({}, Set(now.revoked)) else epoch
      case List(master, list) =>
        if ApplySigned(now, master, list).1.Ok? then epoch.(seen := epoch.seen + Set(list.keys)) else epoch
  }

  ghost predicate Exact(d: Directory, epoch: Epoch) {
    && Set(KeysOf(d.list)) <= epoch.seen
    && epoch.seen !! epoch.before
    && Set(d.revoked) == epoch.before + (epoch.seen - Set(KeysOf(d.list)))
    && Set(d.revoked) !! Set(KeysOf(d.list))
  }

  /** A list keeps the account of the revocations exact. */
  lemma ListKeepsExact(d: Directory, epoch: Epoch, master: string, list: SignedList)
    requires Exact(d, epoch)
    ensures var (d', r) := ApplySigned(d, master, list);
      Exact(d', if r.Ok? then epoch.(seen := epoch.seen + Set(list.keys)) else epoch)
  {
    ApplySignedMeans(d, master, list);
    var r := ApplySigned(d, master, list).1;
    if r == Ok(W.NoOp) {
      NoOpHasTheKeys(d, master, list);
    } else if r.Ok? {
      NeverIgnored(d, master, list);
    }
  }

  lemma NoOpHasTheKeys(d: Directory, master: string, list: SignedList)
    requires ApplySigned(d, master, list).1 == Ok(W.NoOp)
    ensures Set(list.keys) == Set(KeysOf(d.list))
  {
    W.DecideListMeans(d.list, list.version, list.keys);
    SameSet(list.keys, KeysOf(d.list));
  }

  lemma NeverIgnored(d: Directory, master: string, list: SignedList)
    ensures ApplySigned(d, master, list).1 != Ok(W.Ignore)
  {
  }

  /**
   * Exact revocation. In every history, the keys of the lists accepted under the current master are the
   * keys of the current list and, apart from them, the keys revoked under it. A revoked key is never in
   * the list, and the revoked keys of earlier masters stay.
   */
  lemma {:induction false} ExactRevocation(master: string, events: seq<Event>)
    ensures var d, epoch := Run(New(master), events), EpochOf(New(master), events);
      && Set(KeysOf(d.list)) <= epoch.seen
      && epoch.seen !! epoch.before
      && Set(d.revoked) == epoch.before + (epoch.seen - Set(KeysOf(d.list)))
      && Set(d.revoked) !! Set(KeysOf(d.list))
  {
    if events != [] {
      var prefix, e := events[..|events| - 1], events[|events| - 1];
      ExactRevocation(master, prefix);
      var now, epoch := Run(New(master), prefix), EpochOf(New(master), prefix);
      assert Exact(now, epoch);
      if e.List? {
        ListKeepsExact(now, epoch, e.master, e.list);
      }
      assert Exact(Run(New(master), events), EpochOf(New(master), events));
    }
  }

  lemma SameSet(a: seq<string>, b: seq<string>)
    requires multiset(a) == multiset(b)
    ensures Set(a) == Set(b)
  {
    forall x ensures x in a <==> x in b {
      assert x in a <==> x in multiset(a);
      assert x in b <==> x in multiset(b);
    }
  }

  /** Revocations only grow: what was revoked at some point of a history is revoked ever after, in its place. */
  lemma {:induction false} RevokedForever(d: Directory, events: seq<Event>, i: nat)
    requires i <= |events|
    ensures Run(d, events[..i]).revoked <= Run(d, events).revoked
  {
    if i == |events| {
      assert events[..i] == events;
    } else {
      var prefix, e := events[..|events| - 1], events[|events| - 1];
      assert prefix[..i] == events[..i];
      RevokedForever(d, prefix, i);
      if e.List? {
        ApplySignedMeans(Run(d, prefix), e.master, e.list);
      }
    }
  }

  predicate SetsMaster(e: Event) {
    e.Master? && W.IsKeyText(e.key)
  }

  /** A confirmation of the SAS at `i` still counts at the end of the history. */
  predicate SasStands(events: seq<Event>, i: nat) {
    && i < |events| && events[i].Sas?
    && forall j :: i < j < |events| ==> !SetsMaster(events[j])
  }

  /** A confirmation stands after one more event: it is that event, or it stood and no master was set. */
  lemma SasStandsOn(events: seq<Event>)
    requires events != []
    ensures var prefix, e := events[..|events| - 1], events[|events| - 1];
      (exists i: nat :: SasStands(events, i)) <==> e.Sas? || ((exists i: nat :: SasStands(prefix, i)) && !SetsMaster(e))
  {
    var n := |events| - 1;
    var prefix, e := events[..n], events[n];
    if i: nat :| SasStands(prefix, i) && !SetsMaster(e) {
      assert SasStands(events, i);
    }
    if i: nat :| SasStands(events, i) && i < n {
      assert SasStands(prefix, i);
    }
    if e.Sas? {
      assert SasStands(events, n);
    }
  }

  lemma VerifiedOn(d: Directory, e: Event)
    ensures Apply(d, e).verified <==> e.Sas? || (d.verified && !SetsMaster(e))
  {
    if e.List? {
      ApplySignedMeans(d, e.master, e.list);
    }
  }

  /** The directory is verified exactly when the user confirmed a SAS since the current master was set. */
  lemma {:induction false} VerifiedMeansSas(master: string, events: seq<Event>)
    ensures Run(New(master), events).verified <==> exists i: nat :: SasStands(events, i)
  {
    if events != [] {
      var prefix, e := events[..|events| - 1], events[|events| - 1];
      VerifiedMeansSas(master, prefix);
      VerifiedOn(Run(New(master), prefix), e);
      SasStandsOn(events);
    }
  }

  lemma AcceptedDeviceChecks(d: Directory, cert: DeviceCertificate)
    requires AcceptDevice(d, cert).Ok?
    ensures d.verified && cert.master !in d.revoked && cert.master in KeysOf(d.list)
    ensures cert.signature == Sig(cert.master, W.IdText(cert.curve25519, cert.master))
  {
  }

  function AcceptanceFault(d: Directory, cert: DeviceCertificate): ManageError {
    if !d.verified then Unverified
    else if cert.master in d.revoked then RevokedKey
    else E2e(C.BlockFault(cert, KeysOf(d.list)))
  }

  /** When a device is accepted, and why it is not: no SAS first, then a revoked key, then the faults of its block. */
  lemma AcceptanceMeans(d: Directory, cert: DeviceCertificate)
    ensures var r := AcceptDevice(d, cert);
      && (r.Ok? <==> d.verified && cert.master !in d.revoked && C.GoodBlock(cert, KeysOf(d.list)))
      && (r.Ok? ==> r.value == PeerDevice(did := cert.did, curve25519 := cert.curve25519, ed25519 := cert.master))
      && (r.Err? ==> r.error == AcceptanceFault(d, cert))
  {
    C.PeerDeviceMeans(cert, KeysOf(d.list));
  }

  lemma NotRevokedBefore(d: Directory, events: seq<Event>, i: nat, key: string)
    requires i <= |events| && key !in Run(d, events).revoked
    ensures key !in Run(d, events[..i]).revoked
  {
    RevokedForever(d, events, i);
  }

  /**
   * The SAS rule. A device of a remote user is accepted only after a SAS for the current master, only
   * with a key that the current list holds and that no list ever revoked, and with its own signature.
   */
  lemma AcceptedDevice(master: string, events: seq<Event>, cert: DeviceCertificate, i: nat)
    requires i <= |events|
    requires AcceptDevice(Run(New(master), events), cert).Ok?
    ensures cert.master in KeysOf(Run(New(master), events).list)
    ensures cert.master !in Run(New(master), events[..i]).revoked
    ensures exists k: nat :: SasStands(events, k)
    ensures cert.signature == Sig(cert.master, W.IdText(cert.curve25519, cert.master))
  {
    AcceptedDeviceChecks(Run(New(master), events), cert);
    NotRevokedBefore(New(master), events, i, cert.master);
    VerifiedMeansSas(master, events);
  }

  /**
   * Over every history a device is accepted exactly when a SAS for the current master stands, its key is not
   * revoked, and its id block passes every check against the current list. The answer holds its own did and keys.
   */
  lemma AcceptedExactly(master: string, events: seq<Event>, cert: DeviceCertificate)
    ensures var d := Run(New(master), events);
      && (AcceptDevice(d, cert).Ok? <==>
            && (exists k: nat :: SasStands(events, k))
            && cert.master !in d.revoked && C.GoodBlock(cert, KeysOf(d.list)))
      && (AcceptDevice(d, cert).Ok? ==>
            var p := AcceptDevice(d, cert).value;
            p.did == cert.did && p.ed25519 == cert.master && p.curve25519 == cert.curve25519)
  {
    AcceptanceMeans(Run(New(master), events), cert);
    VerifiedMeansSas(master, events);
  }
}
