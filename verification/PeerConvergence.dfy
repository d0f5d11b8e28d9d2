/** Signed lists that arrive late, twice, out of order or not at all lead to the newest delivered list. */
module PeerConvergence {
  import opened Base
  import opened Devices
  import opened PeerManagement

  /** A delivery that the directory of `master` takes for genuine. */
  ghost predicate Genuine(master: string, e: Event) {
    e.List? && e.master == master
    && VerifySignedList(e.list.version, e.list.keys, master, e.list.signature).Ok?
  }

  ghost predicate Names(master: string, e: Event, version: int, keys: set<string>) {
    Genuine(master, e) && e.list.version == version && Set(e.list.keys) == keys
  }

  /** A genuine list with this version and this set of keys is among the deliveries. */
  ghost predicate Arrived(master: string, events: seq<Event>, version: int, keys: set<string>) {
    exists i :: 0 <= i < |events| && Names(master, events[i], version, keys)
  }

  ghost predicate OnlyLists(events: seq<Event>) {
    forall i :: 0 <= i < |events| ==> events[i].List?
  }

  /** The master signs one set of keys in a version. */
  ghost predicate OneSetPerVersion(master: string, events: seq<Event>) {
    forall version, k1, k2 ::
      Arrived(master, events, version, k1) && Arrived(master, events, version, k2) ==> k1 == k2
  }

  /** Version `v2` of the master's lists drops the key `x` of version `v1`. */
  ghost predicate Drops(master: string, events: seq<Event>, x: string, v1: int, k1: set<string>, v2: int, k2: set<string>) {
    && Arrived(master, events, v1, k1) && Arrived(master, events, v2, k2)
    && v1 < v2 && x in k1 && x !in k2
  }

  /** A key that some version drops is in no version after that. */
  ghost predicate NeverBringsBack(master: string, events: seq<Event>) {
    forall x, v1, k1, v2, k2, v3, k3 ::
      Drops(master, events, x, v1, k1, v2, k2) && Arrived(master, events, v3, k3) && v2 < v3 ==> x !in k3
  }

  /** No genuine list is newer than this one. */
  ghost predicate Newest(master: string, events: seq<Event>, version: int, keys: set<string>) {
    && Arrived(master, events, version, keys)
    && (forall v, k :: Arrived(master, events, v, k) ==> v <= version)
  }

  /** Some genuine list holds `x` and a genuine list of a higher version does not. */
  ghost predicate Dropped(master: string, events: seq<Event>, x: string) {
    exists v1, k1, v2, k2 :: Drops(master, events, x, v1, k1, v2, k2)
  }

  ghost predicate Converged(master: string, events: seq<Event>, d: Directory) {
    && d.master == master
    && (d.list.None? ==> d.revoked == [] && forall v, k :: !Arrived(master, events, v, k))
    && (d.list.Some? ==> Newest(master, events, d.list.value.0, Set(d.list.value.1)))
    && (forall x :: x in d.revoked ==> Dropped(master, events, x))
  }

  predicate Somewhere<T>(s: seq<T>, p: T -> bool) {
    exists i :: 0 <= i < |s| && p(s[i])
  }

  /** Something is in a sequence when it is in all but the last place or in the last one. */
  lemma SomewhereOrLast<T>(s: seq<T>, p: T -> bool)
    requires s != []
    ensures Somewhere(s, p) <==> Somewhere(s[..|s| - 1], p) || p(s[|s| - 1])
  {
    var prefix := s[..|s| - 1];
    assert forall i :: 0 <= i < |prefix| ==> prefix[i] == s[i];
    if i :| 0 <= i < |s| && p(s[i]) {
      assert i < |prefix| ==> p(prefix[i]);
    }
    if i :| 0 <= i < |prefix| && p(prefix[i]) {
      assert p(s[i]);
    }
  }

  lemma ArrivedWithLast(master: string, events: seq<Event>, version: int, keys: set<string>)
    requires events != []
    ensures Arrived(master, events, version, keys) <==>
      || Arrived(master, events[..|events| - 1], version, keys)
      || Names(master, events[|events| - 1], version, keys)
  {
    var named := (e: Event) => Names(master, e, version, keys);
    SomewhereOrLast(events, named);
    assert Somewhere(events, named) <==> Arrived(master, events, version, keys);
    assert Somewhere(events[..|events| - 1], named) <==> Arrived(master, events[..|events| - 1], version, keys);
  }

  lemma ArrivedEarlier(master: string, events: seq<Event>)
    requires events != []
    ensures forall v, k :: Arrived(master, events[..|events| - 1], v, k) ==> Arrived(master, events, v, k)
    ensures !Genuine(master, events[|events| - 1]) ==>
      forall v, k :: Arrived(master, events, v, k) ==> Arrived(master, events[..|events| - 1], v, k)
  {
    forall v, k
      ensures Arrived(master, events[..|events| - 1], v, k) ==> Arrived(master, events, v, k)
      ensures Arrived(master, events, v, k) && !Genuine(master, events[|events| - 1]) ==> Arrived(master, events[..|events| - 1], v, k)
    {
      ArrivedWithLast(master, events, v, k);
    }
  }

  lemma ArrivedInAll(master: string, all: seq<Event>, n: nat, version: int, keys: set<string>)
    requires n <= |all| && Arrived(master, all[..n], version, keys)
    ensures Arrived(master, all, version, keys)
  {
    var i :| 0 <= i < n && Names(master, all[..n][i], version, keys);
    assert Names(master, all[i], version, keys);
  }

  lemma DroppedLater(master: string, events: seq<Event>, x: string)
    requires events != [] && Dropped(master, events[..|events| - 1], x)
    ensures Dropped(master, events, x)
  {
    ArrivedEarlier(master, events);
    var v1, k1, v2, k2 :| Drops(master, events[..|events| - 1], x, v1, k1, v2, k2);
    assert Drops(master, events, x, v1, k1, v2, k2);
  }

  /** A key that the first `n` deliveries drop is not in a version above all of them. */
  lemma DroppedStaysOut(master: string, all: seq<Event>, n: nat, x: string, version: int, keys: set<string>)
    requires n <= |all| && Dropped(master, all[..n], x)
    requires NeverBringsBack(master, all) && Arrived(master, all, version, keys)
    requires forall v, k :: Arrived(master, all[..n], v, k) ==> v < version
    ensures x !in keys
  {
    var v1, k1, v2, k2 :| Drops(master, all[..n], x, v1, k1, v2, k2);
    ArrivedInAll(master, all, n, v1, k1);
    ArrivedInAll(master, all, n, v2, k2);
    assert Drops(master, all, x, v1, k1, v2, k2);
  }

  /** A newer genuine list never holds a key that the directory has revoked. */
  lemma NewerListIsClean(master: string, all: seq<Event>, n: nat, d: Directory)
    requires n < |all| && Genuine(master, all[n])
    requires NeverBringsBack(master, all)
    requires Converged(master, all[..n], d)
    requires d.list.Some? ==> all[n].list.version > d.list.value.0
    ensures Set(all[n].list.keys) !! Set(d.revoked)
  {
    var list := all[n].list;
    assert Names(master, all[n], list.version, Set(list.keys));
    forall x | x in d.revoked ensures x !in Set(list.keys) {
      DroppedStaysOut(master, all, n, x, list.version, Set(list.keys));
    }
  }

  /** The last delivery leaves the directory as it is. */
  lemma KeptConverges(master: string, events: seq<Event>, d: Directory)
    requires events != []
    requires Converged(master, events[..|events| - 1], d)
    requires Genuine(master, events[|events| - 1]) ==>
      d.list.Some? && events[|events| - 1].list.version <= d.list.value.0
    ensures Converged(master, events, d)
  {
    ArrivedEarlier(master, events);
    forall v, k | Arrived(master, events, v, k) ensures d.list.Some? && v <= d.list.value.0 {
      ArrivedWithLast(master, events, v, k);
    }
    forall x | x in d.revoked ensures Dropped(master, events, x) {
      DroppedLater(master, events, x);
    }
  }

  /** The last delivery is a newer genuine list: nothing that arrived is newer. */
  lemma ReplacedIsNewest(master: string, events: seq<Event>, d: Directory)
    requires events != [] && Genuine(master, events[|events| - 1])
    requires Converged(master, events[..|events| - 1], d)
    requires d.list.Some? ==> events[|events| - 1].list.version > d.list.value.0
    ensures var list := events[|events| - 1].list; Newest(master, events, list.version, Set(list.keys))
  {
    var list := events[|events| - 1].list;
    ArrivedWithLast(master, events, list.version, Set(list.keys));
    forall v, k | Arrived(master, events, v, k) ensures v <= list.version {
      ArrivedWithLast(master, events, v, k);
    }
  }

  /** A key that the last delivery takes out of the held list is dropped. */
  lemma ReplacedDrops(master: string, events: seq<Event>, d: Directory, x: string)
    requires events != [] && Genuine(master, events[|events| - 1])
    requires Converged(master, events[..|events| - 1], d)
    requires d.list.Some? && events[|events| - 1].list.version > d.list.value.0
    requires x in d.list.value.1 && x !in events[|events| - 1].list.keys
    ensures Dropped(master, events, x)
  {
    var list := events[|events| - 1].list;
    var v1, k1 := d.list.value.0, Set(d.list.value.1);
    ArrivedWithLast(master, events, list.version, Set(list.keys));
    ArrivedWithLast(master, events, v1, k1);
    assert Drops(master, events, x, v1, k1, list.version, Set(list.keys));
  }

  lemma ReplacedConverges(master: string, events: seq<Event>, d: Directory, d': Directory)
    requires events != [] && Genuine(master, events[|events| - 1])
    requires Converged(master, events[..|events| - 1], d)
    requires d.list.Some? ==> events[|events| - 1].list.version > d.list.value.0
    requires var list := events[|events| - 1].list;
      && d'.master == d.master && d'.list == Some((list.version, list.keys))
      && Set(d'.revoked) == Set(d.revoked) + (Set(KeysOf(d.list)) - Set(list.keys))
    ensures Converged(master, events, d')
  {
    ReplacedIsNewest(master, events, d);
    forall x | x in d'.revoked ensures Dropped(master, events, x) {
      assert x in Set(d'.revoked);
      RevokedIsDropped(master, events, d, x);
    }
  }

  /** A key revoked before or taken out by the last delivery is dropped. */
  lemma RevokedIsDropped(master: string, events: seq<Event>, d: Directory, x: string)
    requires events != [] && Genuine(master, events[|events| - 1])
    requires Converged(master, events[..|events| - 1], d)
    requires d.list.Some? ==> events[|events| - 1].list.version > d.list.value.0
    requires x in d.revoked || (x in KeysOf(d.list) && x !in events[|events| - 1].list.keys)
    ensures Dropped(master, events, x)
  {
    if x in d.revoked {
      DroppedLater(master, events, x);
    } else {
      ReplacedDrops(master, events, d, x);
    }
  }

  lemma {:induction false} RunConverges(master: string, all: seq<Event>, n: nat)
    requires n <= |all|
    requires OnlyLists(all) && OneSetPerVersion(master, all) && NeverBringsBack(master, all)
    ensures Converged(master, all[..n], Run(New(master), all[..n]))
  {
    if n > 0 {
      RunConverges(master, all, n - 1);
      var events, e := all[..n], all[n - 1];
      assert events[..n - 1] == all[..n - 1];
      var d := Run(New(master), events[..n - 1]);
      ApplySignedMeans(d, e.master, e.list);
      if Genuine(master, e) && (d.list.Some? ==> e.list.version > d.list.value.0) {
        NewerListIsClean(master, all, n - 1, d);
        ReplacedConverges(master, events, d, Apply(d, e));
      } else {
        KeptConverges(master, events, d);
      }
    }
  }

  /**
   * Convergence. For a master that signs one set of keys per version and never brings back a dropped
   * key, any order, loss and repetition of its lists, mixed with forged ones, leaves a fresh directory
   * with the version and the key set of the newest genuine list that arrived, and with no list exactly
   * when none arrived.
   */
  lemma Convergence(master: string, events: seq<Event>, version: nat, keys: set<string>)
    requires OnlyLists(events) && OneSetPerVersion(master, events) && NeverBringsBack(master, events)
    ensures Run(New(master), events).list.None? <==> forall v, k :: !Arrived(master, events, v, k)
    ensures Newest(master, events, version, keys) <==>
      var list := Run(New(master), events).list; list.Some? && list.value.0 == version && Set(list.value.1) == keys
  {
    RunConverges(master, events, |events|);
    assert events[..|events|] == events;
  }

  /** Two directories that received the same genuine lists hold the same keys, whatever else differed on the way. */
  lemma SameDeliveriesSameKeys(master: string, a: seq<Event>, b: seq<Event>)
    requires OnlyLists(a) && OneSetPerVersion(master, a) && NeverBringsBack(master, a)
    requires OnlyLists(b) && OneSetPerVersion(master, b) && NeverBringsBack(master, b)
    requires forall v, k :: Arrived(master, a, v, k) <==> Arrived(master, b, v, k)
    ensures Set(KeysOf(Run(New(master), a).list)) == Set(KeysOf(Run(New(master), b).list))
    ensures VersionOf(Run(New(master), a).list) == VersionOf(Run(New(master), b).list)
  {
    RunConverges(master, a, |a|);
    RunConverges(master, b, |b|);
    assert a[..|a|] == a && b[..|b|] == b;
    var listA, listB := Run(New(master), a).list, Run(New(master), b).list;
    if listA.Some? {
      var v, keys := listA.value.0, Set(listA.value.1);
      assert Newest(master, b, v, keys);
      Convergence(master, b, v, keys);
    } else {
      Convergence(master, b, 0, {});
    }
  }
}
