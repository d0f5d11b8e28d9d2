/** Limits on how often something may happen: per nickname, and in all of them. */
module Limiters {
  import opened Base
  import opened Filters
  import opened Nicks

  /** `Duration::saturating_sub`: the age of `then`, and nothing for a time that is still to come. */
  function Age(now: nat, then_: nat): nat {
    if now >= then_ then now - then_ else 0
  }

  // ---- one event for each nickname and interval ----

  datatype IntervalState = IntervalState(mapping: Option<CaseMapping>, last: map<string, nat>)

  const NO_INTERVALS: IntervalState := IntervalState(None, map[])

  /** Keys that were folded under another mapping are forgotten. */
  function SyncInterval(s: IntervalState, mapping: CaseMapping): IntervalState {
    if s.mapping == Some(mapping) then s else IntervalState(Some(mapping), map[])
  }

  function TryInterval(interval: nat, s: IntervalState, nick: string, mapping: CaseMapping, now: nat): (IntervalState, bool) {
    var synced := SyncInterval(s, mapping);
    var key := Fold(mapping, nick);
    if key in synced.last && Age(now, synced.last[key]) < interval then (synced, false)
    else (synced.(last := synced.last[key := now]), true)
  }

  function ForgetInterval(s: IntervalState, nick: string, mapping: CaseMapping): IntervalState {
    var synced := SyncInterval(s, mapping);
    synced.(last := synced.last - {Fold(mapping, nick)})
  }

  class IntervalLimiter {
    const interval: nat
    var mapping: Option<CaseMapping>
    var last: map<string, nat>

    constructor (interval: nat)
      ensures this.interval == interval && State() == NO_INTERVALS
    {
      this.interval := interval;
      mapping := None;
      last := map[];
    }

    ghost function State(): IntervalState
      reads this
    {
      IntervalState(mapping, last)
    }

    method SyncMapping(mapping: CaseMapping)
      modifies this
      ensures State() == SyncInterval(old(State()), mapping)
    {
      if this.mapping != Some(mapping) {
        last := map[];
        this.mapping := Some(mapping);
      }
    }

    method TryAcquire(nick: string, mapping: CaseMapping, now: nat) returns (granted: bool)
      modifies this
      ensures (State(), granted) == TryInterval(interval, old(State()), nick, mapping, now)
    {
      SyncMapping(mapping);
      var key := Fold(mapping, nick);
      if key in last {
        if Age(now, last[key]) < interval {
          return false;
        }
      }
      last := last[key := now];
      return true;
    }

    method Forget(nick: string, mapping: CaseMapping)
      modifies this
      ensures State() == ForgetInterval(old(State()), nick, mapping)
    {
      SyncMapping(mapping);
      last := last - {Fold(mapping, nick)};
    }
  }

  // ---- what happened to an interval limiter ----

  /** A grant, a forget, or any other call, each with the mapping that it came with. */
  datatype Deed =
    | Granted(nick: string, mapping: CaseMapping, now: nat)
    | Forgot(nick: string, mapping: CaseMapping)
    | Other(mapping: CaseMapping)

  /** The last grant of a folded nickname since the last forget and the last change of the mapping. */
  function LastGrant(deeds: seq<Deed>, mapping: CaseMapping, key: string): Option<nat> {
    if deeds == [] then None
    else
      var d := deeds[|deeds| - 1];
      if d.mapping != mapping then None
      else if d.Granted? && Fold(mapping, d.nick) == key then Some(d.now)
      else if d.Forgot? && Fold(mapping, d.nick) == key then None
      else LastGrant(deeds[..|deeds| - 1], mapping, key)
  }

  /** The interval of the nickname has passed. */
  predicate Open(interval: nat, deeds: seq<Deed>, nick: string, mapping: CaseMapping, now: nat) {
    match LastGrant(deeds, mapping, Fold(mapping, nick))
    case None => true
    case Some(t) => Age(now, t) >= interval
  }

  /** The map of the limiter holds exactly the last grants of the history. */
  ghost predicate Tracks(s: IntervalState, deeds: seq<Deed>) {
    if deeds == [] then s == NO_INTERVALS
    else
      var mapping := deeds[|deeds| - 1].mapping;
      && s.mapping == Some(mapping)
      && (forall key :: key in s.last <==> LastGrant(deeds, mapping, key).Some?)
      && (forall key :: key in s.last ==> LastGrant(deeds, mapping, key) == Some(s.last[key]))
  }

  lemma LastGrantAfter(deeds: seq<Deed>, d: Deed, mapping: CaseMapping, key: string)
    ensures LastGrant(deeds + [d], mapping, key) ==
      if d.mapping != mapping then None
      else if d.Granted? && Fold(mapping, d.nick) == key then Some(d.now)
      else if d.Forgot? && Fold(mapping, d.nick) == key then None
      else LastGrant(deeds, mapping, key)
  {
    assert (deeds + [d])[..|deeds|] == deeds;
  }

  /** After a change of the mapping nothing is remembered. */
  lemma SyncForgets(s: IntervalState, deeds: seq<Deed>, mapping: CaseMapping)
    requires Tracks(s, deeds)
    ensures var synced := SyncInterval(s, mapping);
      && (forall key :: key in synced.last <==> LastGrant(deeds, mapping, key).Some?)
      && (forall key :: key in synced.last ==> LastGrant(deeds, mapping, key) == Some(synced.last[key]))
  {
  }

  lemma TracksOther(s: IntervalState, deeds: seq<Deed>, mapping: CaseMapping)
    requires Tracks(s, deeds)
    ensures Tracks(SyncInterval(s, mapping), deeds + [Other(mapping)])
  {
    SyncForgets(s, deeds, mapping);
    forall key {
      LastGrantAfter(deeds, Other(mapping), mapping, key);
    }
  }

  /** The limiter grants exactly when the interval has passed in the history, and a refusal leaves no trace. */
  lemma TracksAsk(interval: nat, s: IntervalState, deeds: seq<Deed>, nick: string, mapping: CaseMapping, now: nat)
    requires Tracks(s, deeds)
    ensures var (s', granted) := TryInterval(interval, s, nick, mapping, now);
      && granted == Open(interval, deeds, nick, mapping, now)
      && Tracks(s', deeds + [if granted then Granted(nick, mapping, now) else Other(mapping)])
  {
    SyncForgets(s, deeds, mapping);
    var d := if TryInterval(interval, s, nick, mapping, now).1 then Granted(nick, mapping, now) else Other(mapping);
    forall key {
      LastGrantAfter(deeds, d, mapping, key);
    }
  }

  lemma TracksForget(s: IntervalState, deeds: seq<Deed>, nick: string, mapping: CaseMapping)
    requires Tracks(s, deeds)
    ensures Tracks(ForgetInterval(s, nick, mapping), deeds + [Forgot(nick, mapping)])
  {
    SyncForgets(s, deeds, mapping);
    forall key {
      LastGrantAfter(deeds, Forgot(nick, mapping), mapping, key);
    }
  }

  /** Between `i` and the end the mapping stays and the nickname is not forgotten. */
  predicate Undisturbed(deeds: seq<Deed>, i: nat, mapping: CaseMapping, key: string) {
    forall k :: i <= k < |deeds| ==> deeds[k].mapping == mapping && (deeds[k].Forgot? ==> Fold(mapping, deeds[k].nick) != key)
  }

  /** The clock of a history never goes back. */
  predicate ClockForward(deeds: seq<Deed>) {
    forall i, j :: 0 <= i < j < |deeds| && deeds[i].Granted? && deeds[j].Granted? ==> deeds[i].now <= deeds[j].now
  }

  lemma {:induction false} GrantIsRemembered(deeds: seq<Deed>, i: nat, key: string)
    requires i < |deeds| && deeds[i].Granted? && Fold(deeds[i].mapping, deeds[i].nick) == key
    requires Undisturbed(deeds, i, deeds[i].mapping, key) && ClockForward(deeds)
    ensures LastGrant(deeds, deeds[i].mapping, key).Some?
    ensures deeds[i].now <= LastGrant(deeds, deeds[i].mapping, key).value
    decreases |deeds|
  {
    var last := |deeds| - 1;
    if i < last {
      if !deeds[last].Granted? || Fold(deeds[i].mapping, deeds[last].nick) != key {
        GrantIsRemembered(deeds[..last], i, key);
      }
    }
  }

  /**
   * Two grants of one nickname are at least an interval apart, when the mapping stays and nobody forgets
   * the nickname between them.
   */
  lemma GrantsAreSpaced(interval: nat, deeds: seq<Deed>, i: nat, j: nat)
    requires i < j < |deeds| && ClockForward(deeds) && deeds[i].Granted? && deeds[j].Granted?
    requires deeds[i].mapping == deeds[j].mapping && SameNick(deeds[i].mapping, deeds[i].nick, deeds[j].nick)
    requires Undisturbed(deeds[..j], i, deeds[i].mapping, Fold(deeds[i].mapping, deeds[i].nick))
    requires Open(interval, deeds[..j], deeds[j].nick, deeds[j].mapping, deeds[j].now)
    ensures deeds[j].now - deeds[i].now >= interval
  {
    var before := deeds[..j];
    var key := Fold(deeds[i].mapping, deeds[i].nick);
    GrantIsRemembered(before, i, key);
    LastGrantIsEarlier(deeds, j, key);
  }

  /** What is remembered was granted before. */
  lemma LastGrantIsEarlier(deeds: seq<Deed>, j: nat, key: string)
    requires j < |deeds| && deeds[j].Granted? && ClockForward(deeds)
    requires LastGrant(deeds[..j], deeds[j].mapping, key).Some?
    ensures LastGrant(deeds[..j], deeds[j].mapping, key).value <= deeds[j].now
  {
    var k := GrantOf(deeds[..j], deeds[j].mapping, key);
    assert deeds[k] == deeds[..j][k];
  }

  lemma {:induction false} GrantOf(deeds: seq<Deed>, mapping: CaseMapping, key: string) returns (k: nat)
    requires LastGrant(deeds, mapping, key).Some?
    ensures k < |deeds| && deeds[k].Granted? && deeds[k].now == LastGrant(deeds, mapping, key).value
    decreases |deeds|
  {
    k := |deeds| - 1;
    if !(deeds[k].Granted? && Fold(mapping, deeds[k].nick) == key) {
      k := GrantOf(deeds[..k], mapping, key);
    }
  }

  // ---- a number of events in a window of time ----

  /** The deque without the old events at its front. */
  function DropOld(window: nat, events: seq<nat>, now: nat): seq<nat> {
    if events != [] && Age(now, events[0]) >= window then DropOld(window, events[1..], now) else events
  }

  /** An age never is below zero, so a time that is still to come counts as young. */
  lemma AgeMeans(now: nat, then_: nat)
    ensures then_ <= now ==> then_ + Age(now, then_) == now
    ensures now < then_ ==> Age(now, then_) == 0
  {
  }

  /** What is dropped stands in front, is old and ends before the first young event, wherever the clock went. */
  lemma {:induction false} DropOldMeans(window: nat, events: seq<nat>, now: nat)
    ensures var k := |events| - |DropOld(window, events, now)|;
      && 0 <= k <= |events| && DropOld(window, events, now) == events[k..]
      && (forall i :: 0 <= i < k ==> events[i] + window <= now || window == 0)
      && (k < |events| ==> events[k] + window > now && window > 0)
    decreases |events|
  {
    if events != [] && Age(now, events[0]) >= window {
      DropOldMeans(window, events[1..], now);
    }
  }

  function TryWindow(limit: nat, window: nat, events: seq<nat>, now: nat): (seq<nat>, bool) {
    var young := DropOld(window, events, now);
    if |young| < limit then (young + [now], true) else (young, false)
  }

  class WindowLimiter {
    const limit: nat
    const window: nat
    var events: seq<nat>

    constructor (limit: nat, window: nat)
      ensures this.limit == limit && this.window == window && events == []
    {
      this.limit := limit;
      this.window := window;
      events := [];
    }

    method IsReady(now: nat) returns (ready: bool)
      modifies this
      ensures events == DropOld(window, old(events), now)
      ensures ready == (|events| < limit)
    {
      while events != [] && Age(now, events[0]) >= window
        invariant DropOld(window, events, now) == DropOld(window, old(events), now)
        decreases |events|
      {
        events := events[1..];
      }
      ready := |events| < limit;
    }

    method TryAcquire(now: nat) returns (granted: bool)
      modifies this
      ensures (events, granted) == TryWindow(limit, window, old(events), now)
    {
      var ready := IsReady(now);
      if !ready {
        return false;
      }
      events := events + [now];
      return true;
    }
  }

  /** A later look at the deque first drops what an earlier look dropped. */
  lemma {:induction false} DropTwice(window: nat, events: seq<nat>, now: nat)
    ensures DropOld(window, DropOld(window, events, now), now) == DropOld(window, events, now)
    decreases |events|
  {
    if events != [] && Age(now, events[0]) >= window {
      DropTwice(window, events[1..], now);
    }
  }

  predicate Ascending(times: seq<nat>) {
    forall i, j :: 0 <= i < j < |times| ==> times[i] <= times[j]
  }

  predicate NoneAfter(times: seq<nat>, now: nat) {
    forall i :: 0 <= i < |times| ==> times[i] <= now
  }

  function IsYoung(window: nat, now: nat): nat -> bool {
    (t: nat) => Age(now, t) < window
  }

  /** The grants that are younger than the window. */
  function Young(window: nat, grants: seq<nat>, now: nat): seq<nat> {
    Filter(grants, IsYoung(window, now))
  }

  lemma {:induction false} DropOldIsYoung(window: nat, events: seq<nat>, now: nat)
    requires Ascending(events)
    ensures DropOld(window, events, now) == Young(window, events, now)
    decreases |events|
  {
    var young := IsYoung(window, now);
    if events != [] && Age(now, events[0]) >= window {
      DropOldIsYoung(window, events[1..], now);
      FilterConcat([events[0]], events[1..], young);
      assert [events[0]] + events[1..] == events;
      FilterNone([events[0]], young);
    } else {
      FilterAll(events, young);
    }
  }

  /** Under a clock that never goes back, what was pruned before would be pruned now. */
  lemma YoungOfYoung(window: nat, grants: seq<nat>, earlier: nat, now: nat)
    requires earlier <= now
    ensures Young(window, Young(window, grants, earlier), now) == Young(window, grants, now)
  {
    FilterTwice(grants, IsYoung(window, earlier), IsYoung(window, now));
    FilterSame(grants, Both(IsYoung(window, earlier), IsYoung(window, now)), IsYoung(window, now));
  }

  lemma {:induction false} YoungAscends(window: nat, grants: seq<nat>, now: nat)
    requires Ascending(grants)
    ensures Ascending(Young(window, grants, now))
    decreases |grants|
  {
    var young := IsYoung(window, now);
    if grants != [] {
      var init, last := grants[..|grants| - 1], grants[|grants| - 1];
      YoungAscends(window, init, now);
      var kept := Young(window, init, now);
      forall i | 0 <= i < |kept| ensures kept[i] <= last {
        FilterMember(init, young, kept[i]);
      }
    }
  }

  /** The deque after a look at `now` holds exactly the grants that are younger than the window. */
  ghost predicate Holds(window: nat, events: seq<nat>, grants: seq<nat>, now: nat) {
    && Ascending(grants)
    && NoneAfter(grants, now)
    && events == Young(window, grants, now)
  }

  lemma HoldsLater(window: nat, events: seq<nat>, grants: seq<nat>, earlier: nat, now: nat)
    requires Holds(window, events, grants, earlier) && earlier <= now
    ensures Holds(window, DropOld(window, events, now), grants, now)
  {
    YoungAscends(window, grants, earlier);
    DropOldIsYoung(window, events, now);
    YoungOfYoung(window, grants, earlier, now);
  }

  /** A limiter grants exactly when fewer than `limit` grants are younger than the window. */
  lemma WindowGrants(limit: nat, window: nat, events: seq<nat>, grants: seq<nat>, earlier: nat, now: nat)
    requires Holds(window, events, grants, earlier) && earlier <= now && window > 0
    ensures var (events', granted) := TryWindow(limit, window, events, now);
      && granted == (|Young(window, grants, now)| < limit)
      && Holds(window, events', if granted then grants + [now] else grants, now)
  {
    HoldsLater(window, events, grants, earlier, now);
    FilterAppend(grants, now, IsYoung(window, now));
  }

  /** A call of a window limiter: a look at it, or a try. */
  datatype WindowCall = Look(now: nat) | Try(now: nat)

  predicate Forward(calls: seq<WindowCall>) {
    forall i, j :: 0 <= i < j < |calls| ==> calls[i].now <= calls[j].now
  }

  /** The deque and all the grants so far, after a run of calls. */
  function RunWindow(limit: nat, window: nat, calls: seq<WindowCall>): (seq<nat>, seq<nat>) {
    if calls == [] then ([], [])
    else
      var (events, grants) := RunWindow(limit, window, calls[..|calls| - 1]);
      match calls[|calls| - 1]
      case Look(now) => (DropOld(window, events, now), grants)
      case Try(now) =>
        var (events', granted) := TryWindow(limit, window, events, now);
        (events', if granted then grants + [now] else grants)
  }

  /** With a window of nothing no grant is young and every look empties the deque. */
  lemma {:induction false} NothingIsYoung(events: seq<nat>, grants: seq<nat>, now: nat)
    ensures DropOld(0, events, now) == [] && Young(0, grants, now) == []
    decreases |events|
  {
    FilterNone(grants, IsYoung(0, now));
    if events != [] {
      NothingIsYoung(events[1..], grants, now);
    }
  }

  lemma {:induction false} RunHolds(limit: nat, window: nat, calls: seq<WindowCall>)
    requires Forward(calls) && window > 0
    ensures var (events, grants) := RunWindow(limit, window, calls);
      Holds(window, events, grants, if calls == [] then 0 else calls[|calls| - 1].now)
    decreases |calls|
  {
    if calls != [] {
      var init, call := calls[..|calls| - 1], calls[|calls| - 1];
      var (events, grants) := RunWindow(limit, window, init);
      var earlier := if init == [] then 0 else init[|init| - 1].now;
      RunHolds(limit, window, init);
      HoldsLater(window, events, grants, earlier, call.now);
      WindowGrants(limit, window, events, grants, earlier, call.now);
    }
  }

  /**
   * For every window: a look finds exactly the grants of the whole run that are younger than the window, and
   * a try is granted exactly when they are fewer than `limit`. Between the looks the deque is these grants,
   * unless the window is nothing.
   */
  lemma WindowIsExact(limit: nat, window: nat, calls: seq<WindowCall>)
    requires Forward(calls) && calls != []
    ensures var (events, grants) := RunWindow(limit, window, calls[..|calls| - 1]);
      var call := calls[|calls| - 1];
      && DropOld(window, events, call.now) == Young(window, grants, call.now)
      && RunWindow(limit, window, calls).1 ==
           (if call.Try? && |Young(window, grants, call.now)| < limit then grants + [call.now] else grants)
    ensures var (events, grants) := RunWindow(limit, window, calls);
      window > 0 ==> events == Young(window, grants, calls[|calls| - 1].now)
  {
    var init, call := calls[..|calls| - 1], calls[|calls| - 1];
    var (events, grants) := RunWindow(limit, window, init);
    if window == 0 {
      NothingIsYoung(events, grants, call.now);
    } else {
      RunHolds(limit, window, init);
      RunHolds(limit, window, calls);
      HoldsLater(window, events, grants, if init == [] then 0 else init[|init| - 1].now, call.now);
    }
  }

  function IsInSpan(window: nat, from: nat): nat -> bool {
    (t: nat) => from <= t < from + window
  }

  /** The grants in the half-open span of one window from `from` on. */
  function InSpan(window: nat, grants: seq<nat>, from: nat): seq<nat> {
    Filter(grants, IsInSpan(window, from))
  }

  /** No half-open span of the length of the window ever holds more than `limit` grants. */
  lemma {:induction false} NoSpanOverflows(limit: nat, window: nat, calls: seq<WindowCall>, from: nat)
    requires Forward(calls)
    ensures |InSpan(window, RunWindow(limit, window, calls).1, from)| <= limit
    decreases |calls|
  {
    if window == 0 {
      FilterNone(RunWindow(limit, window, calls).1, IsInSpan(window, from));
    } else if calls != [] {
      var init, now := calls[..|calls| - 1], calls[|calls| - 1].now;
      NoSpanOverflows(limit, window, init, from);
      WindowIsExact(limit, window, calls);
      GrantsBefore(limit, window, calls);
      if RunWindow(limit, window, calls).1 != RunWindow(limit, window, init).1 {
        SpanGrows(limit, window, RunWindow(limit, window, init).1, now, from);
      }
    }
  }

  lemma {:induction false} GrantsBefore(limit: nat, window: nat, calls: seq<WindowCall>)
    requires Forward(calls) && calls != []
    ensures NoneAfter(RunWindow(limit, window, calls[..|calls| - 1]).1, calls[|calls| - 1].now)
    decreases |calls|
  {
    var init := calls[..|calls| - 1];
    if init != [] {
      GrantsBefore(limit, window, init);
    }
  }

  /** One more grant at `now` fits every span, when fewer than `limit` grants are young. */
  lemma SpanGrows(limit: nat, window: nat, grants: seq<nat>, now: nat, from: nat)
    requires NoneAfter(grants, now) && |Young(window, grants, now)| < limit
    requires |InSpan(window, grants, from)| <= limit
    ensures |InSpan(window, grants + [now], from)| <= limit
  {
    FilterAppend(grants, now, IsInSpan(window, from));
    if from <= now < from + window {
      FilterGrows(grants, IsInSpan(window, from), IsYoung(window, now));
    }
  }

  // ---- closed spans ----

  function IsInClosed(window: nat, from: nat): nat -> bool {
    (t: nat) => from <= t <= from + window
  }

  /** The grants in the closed span from `from` to one window later. */
  function InClosed(window: nat, grants: seq<nat>, from: nat): seq<nat> {
    Filter(grants, IsInClosed(window, from))
  }

  function IsRecent(window: nat, now: nat): nat -> bool {
    (t: nat) => Age(now, t) <= window
  }

  /** The grants that are not older than the window. */
  function Recent(window: nat, grants: seq<nat>, now: nat): seq<nat> {
    Filter(grants, IsRecent(window, now))
  }

  /** Every grant of the run was given with fewer than `limit` grants not older than the window. */
  predicate GrantedWithRoom(limit: nat, window: nat, calls: seq<WindowCall>)
    decreases |calls|
  {
    calls == [] ||
    (var before, now := RunWindow(limit, window, calls[..|calls| - 1]).1, calls[|calls| - 1].now;
     && GrantedWithRoom(limit, window, calls[..|calls| - 1])
     && (RunWindow(limit, window, calls).1 == before || |Recent(window, before, now)| < limit))
  }

  ghost predicate NoClosedOverflow(limit: nat, window: nat, grants: seq<nat>) {
    forall from :: |InClosed(window, grants, from)| <= limit
  }

  lemma ClosedGrows(limit: nat, window: nat, grants: seq<nat>, now: nat, from: nat)
    requires NoneAfter(grants, now) && |Recent(window, grants, now)| < limit
    requires |InClosed(window, grants, from)| <= limit
    ensures |InClosed(window, grants + [now], from)| <= limit
  {
    FilterAppend(grants, now, IsInClosed(window, from));
    if from <= now <= from + window {
      FilterGrows(grants, IsInClosed(window, from), IsRecent(window, now));
    }
  }

  /** Without room one closed span that ends at `now` overflows. */
  lemma ClosedOverflows(limit: nat, window: nat, grants: seq<nat>, now: nat)
    requires NoneAfter(grants, now) && |Recent(window, grants, now)| >= limit
    ensures !NoClosedOverflow(limit, window, grants + [now])
  {
    var from := Age(now, window);
    forall t | t in grants ensures t <= now {
      var i :| 0 <= i < |grants| && grants[i] == t;
    }
    FilterGrows(grants, IsRecent(window, now), IsInClosed(window, from));
    FilterAppend(grants, now, IsInClosed(window, from));
    assert |InClosed(window, grants + [now], from)| > limit;
  }

  lemma ClosedBefore(limit: nat, window: nat, grants: seq<nat>, now: nat)
    requires NoClosedOverflow(limit, window, grants + [now])
    ensures NoClosedOverflow(limit, window, grants)
  {
    forall from ensures |InClosed(window, grants, from)| <= limit {
      FilterAppend(grants, now, IsInClosed(window, from));
      assert |InClosed(window, grants + [now], from)| <= limit;
    }
  }

  /**
   * With both ends of the span counted, no span holds more than `limit` grants exactly when every grant was
   * given with fewer than `limit` grants not older than the window. The limiter itself only asks for fewer
   * than `limit` grants younger than the window.
   */
  lemma {:induction false} ClosedSpans(limit: nat, window: nat, calls: seq<WindowCall>)
    requires Forward(calls)
    ensures NoClosedOverflow(limit, window, RunWindow(limit, window, calls).1) <==> GrantedWithRoom(limit, window, calls)
    decreases |calls|
  {
    var grants := RunWindow(limit, window, calls).1;
    if calls == [] {
      forall from ensures InClosed(window, grants, from) == [] {
      }
    } else {
      var init, now := calls[..|calls| - 1], calls[|calls| - 1].now;
      var before := RunWindow(limit, window, init).1;
      ClosedSpans(limit, window, init);
      GrantsBefore(limit, window, calls);
      if grants != before {
        GrantedAtNow(limit, window, calls);
        if NoClosedOverflow(limit, window, grants) {
          ClosedBefore(limit, window, before, now);
        }
        if |Recent(window, before, now)| >= limit {
          ClosedOverflows(limit, window, before, now);
        } else if NoClosedOverflow(limit, window, before) {
          forall from ensures |InClosed(window, grants, from)| <= limit {
            ClosedGrows(limit, window, before, now, from);
          }
        }
      }
    }
  }

  lemma GrantedAtNow(limit: nat, window: nat, calls: seq<WindowCall>)
    requires calls != []
    requires RunWindow(limit, window, calls).1 != RunWindow(limit, window, calls[..|calls| - 1]).1
    ensures RunWindow(limit, window, calls).1 == RunWindow(limit, window, calls[..|calls| - 1]).1 + [calls[|calls| - 1].now]
  {
  }

  lemma GrantedTry(limit: nat, window: nat, calls: seq<WindowCall>, now: nat)
    requires |DropOld(window, RunWindow(limit, window, calls).0, now)| < limit
    ensures var (events, grants) := RunWindow(limit, window, calls);
      RunWindow(limit, window, calls + [Try(now)]) == (DropOld(window, events, now) + [now], grants + [now])
  {
    assert (calls + [Try(now)])[..|calls|] == calls;
  }

  /** A grant at the start and one exactly a window later: the closed span between them holds two, with a limit of one. */
  lemma ClosedSpanHoldsTwo(window: nat)
    ensures Forward([Try(0), Try(window)])
    ensures |InClosed(window, RunWindow(1, window, [Try(0), Try(window)]).1, 0)| == 2
  {
    var first := [Try(0)];
    GrantedTry(1, window, [], 0);
    assert [] + first == first;
    assert RunWindow(1, window, first).0 == [0] && RunWindow(1, window, first).1 == [0];
    assert DropOld(window, [0], window) == [];
    GrantedTry(1, window, first, window);
    assert first + [Try(window)] == [Try(0), Try(window)];
    assert RunWindow(1, window, [Try(0), Try(window)]).1 == [0, window];
    FilterAll([0, window], IsInClosed(window, 0));
  }
}
