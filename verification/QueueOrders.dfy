/** The order of the waiting messages: each nickname keeps the order of its pushes, whatever is tried and put back. */
module QueueOrders {
  import opened Filters
  import opened Nicks
  import opened OutgoingQueues

  // ---- one call ----

  /** A message put back stands in front of all the others, with its first deadline. */
  lemma RestoreMeans(items: seq<QueuedSend>, item: QueuedSend)
    ensures var after := After(items, RestoreCall(item));
      |after| == |items| + 1 && after[0] == item && after[1..] == items
  {
  }

  /** A push stands behind all the others for 90 seconds, unless sixteen of its nickname wait. */
  lemma PushMeans(items: seq<QueuedSend>, key: SendKey, mapping: CaseMapping, now: nat)
    ensures var after := After(items, PushCall(key, mapping, now));
      && (CountFor(items, key.target, mapping) >= 16 ==> after == items)
      && (CountFor(items, key.target, mapping) < 16 ==>
            |after| == |items| + 1 && after[..|items|] == items
            && after[|items|].key == key && after[|items|].deadline == now + 90)
  {
  }

  /** A message leaves the queue as late when its deadline is two seconds away or nearer. */
  lemma ExpireMeans(items: seq<QueuedSend>, now: nat) returns (kept: seq<nat>, late: seq<nat>)
    ensures var after := After(items, ExpireCall(now));
      && InOrder(after, items, kept) && |kept| + |late| == |items|
      && (forall i :: i in kept ==> i < |items| && items[i].deadline > now + 2)
      && (forall i :: i in late ==> i < |items| && items[i].deadline <= now + 2)
  {
    kept, late := FilterInterleaves(items, IsLive(now));
    forall i | i in kept ensures i < |items| && items[i].deadline > now + 2 {
      var k :| 0 <= k < |kept| && kept[k] == i;
      FilterMember(items, IsLive(now), Filter(items, IsLive(now))[k]);
    }
    forall i | i in late ensures i < |items| && items[i].deadline <= now + 2 {
      var k :| 0 <= k < |late| && late[k] == i;
      FilterMember(items, Not(IsLive(now)), Filter(items, Not(IsLive(now)))[k]);
    }
  }

  /** A removal takes out exactly the messages of its key, and the others keep their order. */
  lemma RemoveMeans(items: seq<QueuedSend>, key: SendKey) returns (kept: seq<nat>, gone: seq<nat>)
    ensures var after := After(items, RemoveCall(key));
      && InOrder(after, items, kept) && |kept| + |gone| == |items|
      && (forall i :: i in kept ==> i < |items| && items[i].key != key)
      && (forall i :: i in gone ==> i < |items| && items[i].key == key)
  {
    kept, gone := FilterInterleaves(items, IsOther(key));
    forall i | i in kept ensures i < |items| && items[i].key != key {
      var k :| 0 <= k < |kept| && kept[k] == i;
      FilterMember(items, IsOther(key), Filter(items, IsOther(key))[k]);
    }
    forall i | i in gone ensures i < |items| && items[i].key == key {
      var k :| 0 <= k < |gone| && gone[k] == i;
      FilterMember(items, Not(IsOther(key)), Filter(items, Not(IsOther(key)))[k]);
    }
  }

  /** A drop tells the key of its message, in the order of the queue. */
  lemma DropsMean(items: seq<QueuedSend>, reason: DropReason, i: nat)
    requires i < |items|
    ensures |Drops(items, reason)| == |items| && Drops(items, reason)[i] == SendDropped(items[i].key, reason)
  {
  }

  // ---- several calls ----

  function AfterAll(items: seq<QueuedSend>, calls: seq<Call>): seq<QueuedSend>
    decreases |calls|
  {
    if calls == [] then items else AfterAll(After(items, calls[0]), calls[1..])
  }

  /** The calls that put messages back, the last one first. */
  function Restores(items: seq<QueuedSend>): seq<Call> {
    if items == [] then [] else [RestoreCall(items[|items| - 1])] + Restores(items[..|items| - 1])
  }

  lemma AfterRestore(queue: seq<QueuedSend>, item: QueuedSend, more: seq<Call>)
    ensures AfterAll(queue, [RestoreCall(item)] + more) == AfterAll([item] + queue, more)
  {
    assert ([RestoreCall(item)] + more)[1..] == more;
  }

  lemma RestoresStep(init: seq<QueuedSend>, last: QueuedSend)
    ensures Restores(init + [last]) == [RestoreCall(last)] + Restores(init)
  {
    assert (init + [last])[..|init|] == init;
  }

  lemma Shifted(init: seq<QueuedSend>, last: QueuedSend, queue: seq<QueuedSend>)
    ensures init + ([last] + queue) == init + [last] + queue
  {
  }

  lemma {:induction false} RestoredInFront(queue: seq<QueuedSend>, items: seq<QueuedSend>)
    ensures AfterAll(queue, Restores(items)) == items + queue
    decreases |items|
  {
    if items == [] {
      assert items + queue == queue;
    } else {
      var init, last := items[..|items| - 1], items[|items| - 1];
      assert items == init + [last];
      RestoresStep(init, last);
      AfterRestore(queue, last, Restores(init));
      RestoredInFront([last] + queue, init);
      Shifted(init, last, queue);
    }
  }

  /** A take that hands out everything, and is put back whole, leaves the live messages as they stood. */
  lemma UndoneTake(queue: seq<QueuedSend>, now: nat)
    ensures var live := Filter(queue, IsLive(now));
      AfterAll(After(queue, TakeCall(now, _ => true)), Restores(Filter(live, _ => true))) == live
  {
    var live := Filter(queue, IsLive(now));
    FilterAll(live, _ => true);
    FilterNone(live, Not(_ => true));
    RestoredInFront([], live);
    assert live + [] == live;
  }

  // ---- the runs ----

  /** What becomes of a message that a flush took: it goes out, it is given up, or it goes back. */
  datatype Fate = Sent | GivenUp | Retried

  /** One call without a take or a restore, or a flush, which tries what it takes and puts the retries back. */
  datatype Turn =
    | Single(call: Call)
    | Flush(now: nat, ready: QueuedSend -> bool, fates: nat -> Fate)

  /** The messages of `items` with this fate, by their places. */
  function Picked(items: seq<QueuedSend>, fates: nat -> Fate, fate: Fate): seq<QueuedSend> {
    if items == [] then []
    else
      var n := |items| - 1;
      Picked(items[..n], fates, fate) + (if fates(n) == fate then [items[n]] else [])
  }

  /** The queue, and what was accepted and sent up to now. */
  datatype Flow = Flow(queued: seq<QueuedSend>, accepted: seq<QueuedSend>, sent: seq<QueuedSend>)

  function TakenFrom(queue: seq<QueuedSend>, now: nat, ready: QueuedSend -> bool): seq<QueuedSend> {
    Filter(Filter(queue, IsLive(now)), ready)
  }

  /** A take hands out exactly the live messages that are ready and keeps exactly the live ones that are not. */
  lemma TakeMeans(items: seq<QueuedSend>, now: nat, ready: QueuedSend -> bool, item: QueuedSend)
    ensures item in TakenFrom(items, now, ready) <==> item in items && now + 2 < item.deadline && ready(item)
    ensures item in After(items, TakeCall(now, ready)) <==> item in items && now + 2 < item.deadline && !ready(item)
    ensures After(items, EndCall) == []
  {
    FilterMember(items, IsLive(now), item);
    FilterMember(Filter(items, IsLive(now)), ready, item);
    FilterMember(Filter(items, IsLive(now)), Not(ready), item);
  }

  predicate Takes(turn: Turn) {
    turn.Single? && (turn.call.TakeCall? || turn.call.RestoreCall?)
  }

  function Turned(f: Flow, turn: Turn): Flow
    requires !Takes(turn)
  {
    match turn
    case Single(call) =>
      var next := After(f.queued, call);
      f.(queued := next, accepted := f.accepted + (if |next| > |f.queued| then next[|f.queued|..] else []))
    case Flush(now, ready, fates) =>
      var taken := TakenFrom(f.queued, now, ready);
      f.(queued := AfterAll(After(f.queued, TakeCall(now, ready)), Restores(Picked(taken, fates, Retried))),
         sent := f.sent + Picked(taken, fates, Sent))
  }

  function Flowed(f: Flow, turns: seq<Turn>): Flow
    requires forall k :: 0 <= k < |turns| ==> !Takes(turns[k])
    decreases |turns|
  {
    if turns == [] then f else Flowed(Turned(f, turns[0]), turns[1..])
  }

  /** Whether a message is taken depends on its nickname only, as in a flush for the peers with keys. */
  ghost predicate ByNick(ready: QueuedSend -> bool, mapping: CaseMapping) {
    forall a: QueuedSend, b: QueuedSend :: SameNick(mapping, a.key.target, b.key.target) ==> ready(a) == ready(b)
  }

  ghost predicate FlushesByNick(turns: seq<Turn>, mapping: CaseMapping) {
    forall k :: 0 <= k < |turns| && turns[k].Flush? ==> ByNick(turns[k].ready, mapping)
  }

  /** `a` is a part of `b`, in its order. */
  ghost predicate Within<T(!new)>(a: seq<T>, b: seq<T>) {
    exists at :: InOrder(a, b, at)
  }

  // ---- parts in order ----

  lemma WithinSelf<T(!new)>(a: seq<T>)
    ensures Within(a, a) && Within([], a)
  {
    assert InOrder(a, a, seq(|a|, i => i));
    assert InOrder([], a, []);
  }

  lemma WithinNothing<T(!new)>(a: seq<T>)
    ensures Within(a, []) ==> a == []
  {
    if a != [] {
      forall at ensures !InOrder(a, [], at) {
        if |at| == |a| {
          assert at[0] >= 0;
        }
      }
    }
  }

  lemma WithinTwice<T(!new)>(a: seq<T>, b: seq<T>, c: seq<T>)
    requires Within(a, b) && Within(b, c)
    ensures Within(a, c)
  {
    var x :| InOrder(a, b, x);
    var y :| InOrder(b, c, y);
    assert InOrder(a, c, seq(|x|, i requires 0 <= i < |x| => y[x[i]]));
  }

  lemma WithinBoth<T(!new)>(a: seq<T>, b: seq<T>, c: seq<T>, d: seq<T>)
    requires Within(a, b) && Within(c, d)
    ensures Within(a + c, b + d)
  {
    var x :| InOrder(a, b, x);
    var y :| InOrder(c, d, y);
    assert InOrder(a + c, b + d, x + seq(|y|, i requires 0 <= i < |y| => |b| + y[i]));
  }

  lemma FilterWithin<T(!new)>(s: seq<T>, p: T -> bool)
    ensures Within(Filter(s, p), s)
  {
    var kept, dropped := FilterInterleaves(s, p);
    assert InOrder(Filter(s, p), s, kept);
  }

  /** A condition of the queue leaves the messages of a nickname in their order. */
  lemma FilteredWithin(items: seq<QueuedSend>, keep: QueuedSend -> bool, mine: QueuedSend -> bool)
    ensures Within(Filter(Filter(items, keep), mine), Filter(items, mine))
  {
    FilterTwice(items, keep, mine);
    FilterTwice(items, mine, keep);
    FilterSame(items, Both(keep, mine), Both(mine, keep));
    FilterWithin(Filter(items, mine), keep);
  }

  lemma {:induction false} PickedMembers(items: seq<QueuedSend>, fates: nat -> Fate, fate: Fate, x: QueuedSend)
    requires x in Picked(items, fates, fate)
    ensures x in items
    decreases |items|
  {
    var n := |items| - 1;
    if x in Picked(items[..n], fates, fate) {
      PickedMembers(items[..n], fates, fate, x);
    }
  }

  /** No message of the nickname is put back and overtaken by a later one that goes out. */
  ghost predicate NoneOvertaken(items: seq<QueuedSend>, fates: nat -> Fate, mine: QueuedSend -> bool) {
    forall i, j :: 0 <= i < j < |items| && mine(items[i]) && mine(items[j]) && fates(i) == Retried ==> fates(j) != Sent
  }

  /** The messages of one nickname with this fate. */
  function Mine(items: seq<QueuedSend>, fates: nat -> Fate, fate: Fate, mine: QueuedSend -> bool): seq<QueuedSend> {
    Filter(Picked(items, fates, fate), mine)
  }

  lemma PickedStep(init: seq<QueuedSend>, last: QueuedSend, fates: nat -> Fate, fate: Fate)
    ensures Picked(init + [last], fates, fate) == Picked(init, fates, fate) + (if fates(|init|) == fate then [last] else [])
  {
    assert (init + [last])[..|init|] == init;
  }

  lemma MineStep(init: seq<QueuedSend>, last: QueuedSend, fates: nat -> Fate, fate: Fate, mine: QueuedSend -> bool)
    ensures Mine(init + [last], fates, fate, mine) ==
            Mine(init, fates, fate, mine) + (if fates(|init|) == fate && mine(last) then [last] else [])
  {
    var picked := Picked(init, fates, fate);
    PickedStep(init, last, fates, fate);
    if fates(|init|) == fate {
      FilterAppend(picked, last, mine);
    } else {
      assert picked + [] == picked;
      assert Filter(picked, mine) + [] == Filter(picked, mine);
    }
  }

  lemma {:induction false} PickedWithin(items: seq<QueuedSend>, fates: nat -> Fate, fate: Fate, mine: QueuedSend -> bool)
    ensures Within(Mine(items, fates, fate, mine), Filter(items, mine))
    decreases |items|
  {
    if items == [] {
      WithinSelf(Filter(items, mine));
    } else {
      var init, last := items[..|items| - 1], items[|items| - 1];
      PickedWithin(init, fates, fate, mine);
      assert items == init + [last];
      FilterAppend(init, last, mine);
      MineStep(init, last, fates, fate, mine);
      WithinOneMore(Mine(init, fates, fate, mine), Filter(init, mine), last);
    }
  }

  lemma WithinOneMore<T(!new)>(a: seq<T>, b: seq<T>, x: T)
    requires Within(a, b)
    ensures Within(a, b + []) && Within(a + [], b + []) && Within(a + [], b + [x]) && Within(a + [x], b + [x])
  {
    assert a + [] == a && b + [] == b;
    WithinSelf([x]);
    WithinBoth(a, b, [], [x]);
    WithinBoth(a, b, [x], [x]);
  }

  lemma {:induction false} NoneRetried(items: seq<QueuedSend>, fates: nat -> Fate, mine: QueuedSend -> bool)
    requires forall i :: 0 <= i < |items| && mine(items[i]) ==> fates(i) != Retried
    ensures Mine(items, fates, Retried, mine) == []
    decreases |items|
  {
    if items != [] {
      var init, last := items[..|items| - 1], items[|items| - 1];
      NoneRetried(init, fates, mine);
      assert items == init + [last];
      MineStep(init, last, fates, Retried, mine);
    }
  }

  /** With none overtaken, what goes out and then what goes back stand in the order of the take. */
  lemma {:induction false} SentThenRetried(items: seq<QueuedSend>, fates: nat -> Fate, mine: QueuedSend -> bool)
    requires NoneOvertaken(items, fates, mine)
    ensures Within(Mine(items, fates, Sent, mine) + Mine(items, fates, Retried, mine), Filter(items, mine))
    decreases |items|
  {
    if items == [] {
      WithinSelf(Filter(items, mine));
      assert Mine(items, fates, Sent, mine) + Mine(items, fates, Retried, mine) == [];
    } else {
      var init, last := items[..|items| - 1], items[|items| - 1];
      SentThenRetried(init, fates, mine);
      assert items == init + [last];
      SentThenRetriedStep(init, last, fates, mine);
    }
  }

  /** One more message, which goes out, goes back or does neither. */
  lemma OneMoreFate<T(!new)>(out: seq<T>, back: seq<T>, all: seq<T>, x: T, mine: bool, sent: bool, retried: bool)
    requires Within(out + back, all) && !(sent && retried) && (sent ==> mine && back == []) && (retried ==> mine)
    ensures Within((out + (if sent then [x] else [])) + (back + (if retried then [x] else [])), all + (if mine then [x] else []))
  {
    WithinOneMore(out + back, all, x);
    if sent {
      assert (out + [x]) + (back + []) == out + back + [x];
    } else if retried {
      assert (out + []) + (back + [x]) == out + back + [x];
    } else {
      assert (out + []) + (back + []) == out + back + [];
    }
  }

  lemma SentThenRetriedStep(init: seq<QueuedSend>, last: QueuedSend, fates: nat -> Fate, mine: QueuedSend -> bool)
    requires NoneOvertaken(init + [last], fates, mine)
    requires Within(Mine(init, fates, Sent, mine) + Mine(init, fates, Retried, mine), Filter(init, mine))
    ensures Within(Mine(init + [last], fates, Sent, mine) + Mine(init + [last], fates, Retried, mine), Filter(init + [last], mine))
  {
    var sent, retried := fates(|init|) == Sent && mine(last), fates(|init|) == Retried && mine(last);
    MineStep(init, last, fates, Sent, mine);
    MineStep(init, last, fates, Retried, mine);
    FilterAppend(init, last, mine);
    if sent {
      RetriedNever(init, last, fates, mine);
    }
    OneMoreFate(Mine(init, fates, Sent, mine), Mine(init, fates, Retried, mine), Filter(init, mine), last, mine(last), sent, retried);
  }

  lemma RetriedNever(init: seq<QueuedSend>, last: QueuedSend, fates: nat -> Fate, mine: QueuedSend -> bool)
    requires NoneOvertaken(init + [last], fates, mine) && mine(last) && fates(|init|) == Sent
    ensures Mine(init, fates, Retried, mine) == []
  {
    var items := init + [last];
    forall i | 0 <= i < |init| && mine(init[i]) ensures fates(i) != Retried {
      assert items[i] == init[i] && items[|init|] == last;
    }
    NoneRetried(init, fates, mine);
  }

  // ---- one turn ----

  /** The queue and what was sent, as they stand for one nickname. */
  ghost predicate InPushOrder(f: Flow, mine: QueuedSend -> bool) {
    Within(Filter(f.queued, mine), Filter(f.accepted, mine))
  }

  lemma SingleKeeps(f: Flow, call: Call, mine: QueuedSend -> bool)
    requires !Takes(Single(call)) && InPushOrder(f, mine)
    ensures InPushOrder(Turned(f, Single(call)), mine)
  {
    var f' := Turned(f, Single(call));
    match call {
      case PushCall(key, mapping, now) =>
        if |f'.queued| > |f.queued| {
          var item := QueuedSend(key, now + OUTGOING_QUEUE_TTL);
          assert f'.accepted == f.accepted + [item];
          FilterAppend(f.queued, item, mine);
          FilterAppend(f.accepted, item, mine);
          WithinOneMore(Filter(f.queued, mine), Filter(f.accepted, mine), item);
        } else {
          assert f'.accepted == f.accepted;
        }
      case ExpireCall(now) =>
        FewerKeep(f, IsLive(now), mine);
        assert f'.accepted == f.accepted;
      case RemoveCall(key) =>
        FewerKeep(f, IsOther(key), mine);
        assert f'.accepted == f.accepted;
      case EndCall =>
        assert f'.accepted == f.accepted;
        WithinSelf(Filter(f.accepted, mine));
    }
  }

  lemma FewerKeep(f: Flow, keep: QueuedSend -> bool, mine: QueuedSend -> bool)
    requires InPushOrder(f, mine)
    ensures InPushOrder(Flow(Filter(f.queued, keep), f.accepted, f.sent), mine)
    ensures |Filter(f.queued, keep)| <= |f.queued|
  {
    FilterShrinks(f.queued, keep);
    FilteredWithin(f.queued, keep, mine);
    WithinTwice(Filter(Filter(f.queued, keep), mine), Filter(f.queued, mine), Filter(f.accepted, mine));
  }

  /** What a flush does to one nickname: it takes all its live messages or none. */
  lemma FlushForNick(queue: seq<QueuedSend>, now: nat, ready: QueuedSend -> bool, mapping: CaseMapping, target: string)
    requires ByNick(ready, mapping)
    ensures var mine := IsFor(target, mapping);
      var live := Filter(queue, IsLive(now));
      || (Filter(Filter(live, ready), mine) == Filter(live, mine) && Filter(Filter(live, Not(ready)), mine) == [])
      || (Filter(Filter(live, ready), mine) == [] && Filter(Filter(live, Not(ready)), mine) == Filter(live, mine))
  {
    var mine := IsFor(target, mapping);
    var live := Filter(queue, IsLive(now));
    var one := QueuedSend(SendKey("", target, ""), 0);
    FilterTwice(live, ready, mine);
    FilterTwice(live, Not(ready), mine);
    if ready(one) {
      FilterSame(live, Both(ready, mine), mine);
      FilterNone(live, Both(Not(ready), mine));
    } else {
      FilterNone(live, Both(ready, mine));
      FilterSame(live, Both(Not(ready), mine), mine);
    }
  }

  lemma FlushedQueue(f: Flow, now: nat, ready: QueuedSend -> bool, fates: nat -> Fate, mine: QueuedSend -> bool)
    ensures var taken := TakenFrom(f.queued, now, ready);
      var kept := Filter(Filter(f.queued, IsLive(now)), Not(ready));
      var f' := Turned(f, Flush(now, ready, fates));
      && f'.accepted == f.accepted
      && Filter(f'.queued, mine) == Mine(taken, fates, Retried, mine) + Filter(kept, mine)
      && Filter(f'.sent, mine) == Filter(f.sent, mine) + Mine(taken, fates, Sent, mine)
  {
    var taken := TakenFrom(f.queued, now, ready);
    var kept := Filter(Filter(f.queued, IsLive(now)), Not(ready));
    RestoredInFront(kept, Picked(taken, fates, Retried));
    FilterConcat(Picked(taken, fates, Retried), kept, mine);
    FilterConcat(f.sent, Picked(taken, fates, Sent), mine);
  }

  lemma {:induction false} NothingMine(items: seq<QueuedSend>, fates: nat -> Fate, fate: Fate, mine: QueuedSend -> bool)
    requires Filter(items, mine) == []
    ensures Mine(items, fates, fate, mine) == []
  {
    PickedWithin(items, fates, fate, mine);
    WithinNothing(Mine(items, fates, fate, mine));
  }

  /** What goes back stands in front of what stayed; one of the two is empty. */
  lemma BackThenKept<T(!new)>(back: seq<T>, kept: seq<T>, live: seq<T>, all: seq<T>)
    requires Within(live, all) && ((kept == [] && Within(back, live)) || (back == [] && kept == live))
    ensures Within(back + kept, all)
  {
    if kept == [] && Within(back, live) {
      assert back + kept == back;
      WithinTwice(back, live, all);
    } else {
      assert back + kept == kept;
    }
  }

  lemma LiveInOrder(f: Flow, now: nat, mine: QueuedSend -> bool)
    requires InPushOrder(f, mine)
    ensures Within(Filter(Filter(f.queued, IsLive(now)), mine), Filter(f.accepted, mine))
  {
    FilteredWithin(f.queued, IsLive(now), mine);
    WithinTwice(Filter(Filter(f.queued, IsLive(now)), mine), Filter(f.queued, mine), Filter(f.accepted, mine));
  }

  /** Of a nickname that is taken, the retries are live messages in order; of one that is not, there are none. */
  lemma BackForNick(queue: seq<QueuedSend>, now: nat, ready: QueuedSend -> bool, fates: nat -> Fate, fate: Fate,
                    mapping: CaseMapping, target: string)
    requires ByNick(ready, mapping)
    ensures var mine := IsFor(target, mapping);
      var live := Filter(Filter(queue, IsLive(now)), mine);
      var back := Mine(TakenFrom(queue, now, ready), fates, fate, mine);
      var kept := Filter(Filter(Filter(queue, IsLive(now)), Not(ready)), mine);
      (kept == [] && Within(back, live)) || (back == [] && kept == live)
  {
    var mine := IsFor(target, mapping);
    var taken := TakenFrom(queue, now, ready);
    FlushForNick(queue, now, ready, mapping, target);
    PickedWithin(taken, fates, fate, mine);
    if Filter(taken, mine) == [] {
      NothingMine(taken, fates, fate, mine);
    }
  }

  lemma FlushKeeps(f: Flow, now: nat, ready: QueuedSend -> bool, fates: nat -> Fate, mapping: CaseMapping, target: string)
    requires ByNick(ready, mapping) && InPushOrder(f, IsFor(target, mapping))
    ensures InPushOrder(Turned(f, Flush(now, ready, fates)), IsFor(target, mapping))
  {
    var mine := IsFor(target, mapping);
    var live := Filter(f.queued, IsLive(now));
    LiveInOrder(f, now, mine);
    BackForNick(f.queued, now, ready, fates, Retried, mapping, target);
    BackThenKept(Mine(Filter(live, ready), fates, Retried, mine), Filter(Filter(live, Not(ready)), mine),
      Filter(live, mine), Filter(f.accepted, mine));
    FlushedQueue(f, now, ready, fates, mine);
  }

  /**
   * The order of the queue. In any run of pushes, expiries, removals and flushes, where a flush takes by nickname
   * and puts its retries back in reverse, the messages of each nickname wait in the order of their pushes.
   */
  lemma {:induction false} PushOrder(f: Flow, turns: seq<Turn>, mapping: CaseMapping, target: string)
    requires forall k :: 0 <= k < |turns| ==> !Takes(turns[k])
    requires FlushesByNick(turns, mapping) && InPushOrder(f, IsFor(target, mapping))
    ensures InPushOrder(Flowed(f, turns), IsFor(target, mapping))
    decreases |turns|
  {
    if turns != [] {
      match turns[0] {
        case Single(call) => SingleKeeps(f, call, IsFor(target, mapping));
        case Flush(now, ready, fates) => FlushKeeps(f, now, ready, fates, mapping, target);
      }
      forall k | 0 <= k < |turns| - 1 && turns[1..][k].Flush? ensures ByNick(turns[1..][k].ready, mapping) {
        assert turns[1..][k] == turns[k + 1];
      }
      PushOrder(Turned(f, turns[0]), turns[1..], mapping, target);
    }
  }

  lemma FinerByNick(ready: QueuedSend -> bool, mapping: CaseMapping)
    requires ByNick(ready, mapping)
    ensures ByNick(ready, Ascii)
  {
    forall a: QueuedSend, b: QueuedSend | SameNick(Ascii, a.key.target, b.key.target) ensures ready(a) == ready(b) {
      CoarserMapping(a.key.target, b.key.target);
    }
  }

  /** The same when the mapping changes between the flushes of a run, for the nicknames that are one under all mappings. */
  lemma PushOrderOfName(f: Flow, turns: seq<Turn>, mappings: seq<CaseMapping>, target: string)
    requires |mappings| == |turns| && forall k :: 0 <= k < |turns| ==> !Takes(turns[k])
    requires forall k :: 0 <= k < |turns| && turns[k].Flush? ==> ByNick(turns[k].ready, mappings[k])
    requires InPushOrder(f, IsFor(target, Ascii))
    ensures InPushOrder(Flowed(f, turns), IsFor(target, Ascii))
  {
    forall k | 0 <= k < |turns| && turns[k].Flush? ensures ByNick(turns[k].ready, Ascii) {
      FinerByNick(turns[k].ready, mappings[k]);
    }
    PushOrder(f, turns, Ascii, target);
  }

  // ---- what goes out ----

  /** What was sent, and then what waits, stand for one nickname in the order of their pushes. */
  ghost predicate SentInOrder(f: Flow, mine: QueuedSend -> bool) {
    Within(Filter(f.sent, mine) + Filter(f.queued, mine), Filter(f.accepted, mine))
  }

  /** No flush of the run sends a message of the nickname past an earlier one that it puts back. */
  ghost predicate NeverOvertaken(f: Flow, turns: seq<Turn>, mine: QueuedSend -> bool)
    requires forall k :: 0 <= k < |turns| ==> !Takes(turns[k])
    decreases |turns|
  {
    turns == [] ||
    ((turns[0].Flush? ==> NoneOvertaken(TakenFrom(f.queued, turns[0].now, turns[0].ready), turns[0].fates, mine))
     && NeverOvertaken(Turned(f, turns[0]), turns[1..], mine))
  }

  lemma WithinAfter<T(!new)>(front: seq<T>, a: seq<T>, b: seq<T>, all: seq<T>)
    requires Within(a, b) && Within(front + b, all)
    ensures Within(front + a, all)
  {
    WithinSelf(front);
    WithinBoth(front, front, a, b);
    WithinTwice(front + a, front + b, all);
  }

  lemma FewerSend(f: Flow, keep: QueuedSend -> bool, mine: QueuedSend -> bool)
    requires SentInOrder(f, mine)
    ensures SentInOrder(Flow(Filter(f.queued, keep), f.accepted, f.sent), mine)
    ensures |Filter(f.queued, keep)| <= |f.queued|
  {
    FilterShrinks(f.queued, keep);
    FilteredWithin(f.queued, keep, mine);
    WithinAfter(Filter(f.sent, mine), Filter(Filter(f.queued, keep), mine), Filter(f.queued, mine), Filter(f.accepted, mine));
  }

  lemma NoneLeft(f: Flow, mine: QueuedSend -> bool)
    requires SentInOrder(f, mine)
    ensures SentInOrder(Flow([], f.accepted, f.sent), mine)
  {
    WithinSelf(Filter(f.queued, mine));
    WithinAfter(Filter(f.sent, mine), [], Filter(f.queued, mine), Filter(f.accepted, mine));
  }

  lemma PushedFlow(f: Flow, key: SendKey, mapping: CaseMapping, now: nat)
    ensures var item := QueuedSend(key, now + OUTGOING_QUEUE_TTL);
      Turned(f, Single(PushCall(key, mapping, now))) ==
        if CountFor(f.queued, key.target, mapping) >= 16 then f
        else Flow(f.queued + [item], f.accepted + [item], f.sent)
  {
    assert f.accepted + [] == f.accepted;
    assert (f.queued + [QueuedSend(key, now + OUTGOING_QUEUE_TTL)])[|f.queued|..] == [QueuedSend(key, now + OUTGOING_QUEUE_TTL)];
  }

  lemma PushTurn(f: Flow, key: SendKey, mapping: CaseMapping, now: nat, mine: QueuedSend -> bool)
    requires SentInOrder(f, mine)
    ensures SentInOrder(Turned(f, Single(PushCall(key, mapping, now))), mine)
  {
    PushedFlow(f, key, mapping, now);
    PushSends(f, QueuedSend(key, now + OUTGOING_QUEUE_TTL), mine);
  }

  lemma SingleSends(f: Flow, call: Call, mine: QueuedSend -> bool)
    requires !Takes(Single(call)) && SentInOrder(f, mine)
    ensures SentInOrder(Turned(f, Single(call)), mine)
  {
    match call {
      case PushCall(key, mapping, now) => PushTurn(f, key, mapping, now, mine);
      case ExpireCall(now) => FewerSend(f, IsLive(now), mine);
      case RemoveCall(key) => FewerSend(f, IsOther(key), mine);
      case EndCall => NoneLeft(f, mine);
    }
    assert f.accepted + [] == f.accepted;
  }

  lemma PushSends(f: Flow, item: QueuedSend, mine: QueuedSend -> bool)
    requires SentInOrder(f, mine)
    ensures SentInOrder(Flow(f.queued + [item], f.accepted + [item], f.sent), mine)
  {
    FilterAppend(f.queued, item, mine);
    FilterAppend(f.accepted, item, mine);
    var sent := Filter(f.sent, mine);
    assert sent + [] == sent;
    OneMoreFate(sent, Filter(f.queued, mine), Filter(f.accepted, mine), item, mine(item), false, mine(item));
  }

  lemma FlushSends(f: Flow, now: nat, ready: QueuedSend -> bool, fates: nat -> Fate, mapping: CaseMapping, target: string)
    requires ByNick(ready, mapping) && SentInOrder(f, IsFor(target, mapping))
    requires NoneOvertaken(TakenFrom(f.queued, now, ready), fates, IsFor(target, mapping))
    ensures SentInOrder(Turned(f, Flush(now, ready, fates)), IsFor(target, mapping))
  {
    var mine := IsFor(target, mapping);
    var live := Filter(f.queued, IsLive(now));
    var taken, kept := Filter(live, ready), Filter(live, Not(ready));
    var sent, out, back := Filter(f.sent, mine), Mine(taken, fates, Sent, mine), Mine(taken, fates, Retried, mine);
    FlushedQueue(f, now, ready, fates, mine);
    FlushForNick(f.queued, now, ready, mapping, target);
    FilteredWithin(f.queued, IsLive(now), mine);
    WithinAfter(sent, Filter(live, mine), Filter(f.queued, mine), Filter(f.accepted, mine));
    if Filter(taken, mine) == [] {
      NothingMine(taken, fates, Sent, mine);
      NothingMine(taken, fates, Retried, mine);
      FlushedTo(sent, [], [], Filter(kept, mine));
    } else {
      SentThenRetried(taken, fates, mine);
      WithinAfter(sent, out + back, Filter(live, mine), Filter(f.accepted, mine));
      FlushedTo(sent, out, back, []);
    }
  }

  lemma FlushedTo<T>(sent: seq<T>, out: seq<T>, back: seq<T>, kept: seq<T>)
    ensures (sent + out) + (back + kept) == sent + (out + back + kept)
    ensures (sent + []) + ([] + kept) == sent + kept
    ensures (sent + out) + (back + []) == sent + (out + back)
  {
  }

  /**
   * The order of what goes out: when no flush sends a message past an earlier one of its nickname that goes back,
   * everything leaves in the order of its pushes.
   */
  lemma {:induction false} SendOrder(f: Flow, turns: seq<Turn>, mapping: CaseMapping, target: string)
    requires forall k :: 0 <= k < |turns| ==> !Takes(turns[k])
    requires FlushesByNick(turns, mapping) && SentInOrder(f, IsFor(target, mapping))
    requires NeverOvertaken(f, turns, IsFor(target, mapping))
    ensures SentInOrder(Flowed(f, turns), IsFor(target, mapping))
    decreases |turns|
  {
    if turns != [] {
      match turns[0] {
        case Single(call) => SingleSends(f, call, IsFor(target, mapping));
        case Flush(now, ready, fates) => FlushSends(f, now, ready, fates, mapping, target);
      }
      forall k | 0 <= k < |turns| - 1 && turns[1..][k].Flush? ensures ByNick(turns[1..][k].ready, mapping) {
        assert turns[1..][k] == turns[k + 1];
      }
      SendOrder(Turned(f, turns[0]), turns[1..], mapping, target);
    }
  }

  /** The first message goes back, every later one goes out. */
  function FirstBusy(): nat -> Fate {
    (i: nat) => if i == 0 then Retried else Sent
  }

  lemma TwoFates(first: QueuedSend, second: QueuedSend)
    ensures Picked([first, second], FirstBusy(), Retried) == [first]
    ensures Picked([first, second], FirstBusy(), Sent) == [second]
  {
    PickedStep([], first, FirstBusy(), Retried);
    PickedStep([], first, FirstBusy(), Sent);
    PickedStep([first], second, FirstBusy(), Retried);
    PickedStep([first], second, FirstBusy(), Sent);
    assert [] + [first] == [first] && [first] + [second] == [first, second];
  }

  lemma TakesTwo(first: QueuedSend, second: QueuedSend, ready: QueuedSend -> bool)
    requires first.deadline == second.deadline == 90 && forall item :: ready(item)
    ensures TakenFrom([first, second], 0, ready) == [first, second]
    ensures After([first, second], TakeCall(0, ready)) == []
  {
    FilterAll([first, second], IsLive(0));
    FilterAll([first, second], ready);
    FilterNone([first, second], Not(ready));
  }

  /** A busy relay does let a later message pass: the first of two is refused and the second goes out. */
  lemma RetryIsOvertaken(a: SendKey, b: SendKey, mapping: CaseMapping)
    requires a != b && a.target == b.target
    ensures var first, second := QueuedSend(a, 90), QueuedSend(b, 90);
      var f := Turned(Flow([first, second], [first, second], []), Flush(0, _ => true, FirstBusy()));
      f == Flow([first], [first, second], [second]) && !SentInOrder(f, IsFor(a.target, mapping))
  {
    var first, second := QueuedSend(a, 90), QueuedSend(b, 90);
    TakesTwo(first, second, _ => true);
    TwoFates(first, second);
    RestoredInFront([], [first]);
    SwappedIsNotWithin(first, second, mapping);
  }

  lemma SwappedIsNotWithin(first: QueuedSend, second: QueuedSend, mapping: CaseMapping)
    requires first != second && first.key.target == second.key.target
    ensures !SentInOrder(Flow([first], [first, second], [second]), IsFor(first.key.target, mapping))
  {
    var mine := IsFor(first.key.target, mapping);
    FilterAll([first], mine);
    FilterAll([second], mine);
    FilterAll([first, second], mine);
    SentBehind(Flow([first], [first, second], [second]), mine, first, second);
  }

  lemma SentBehind(f: Flow, mine: QueuedSend -> bool, a: QueuedSend, b: QueuedSend)
    requires Filter(f.sent, mine) == [b] && Filter(f.queued, mine) == [a] && Filter(f.accepted, mine) == [a, b] && a != b
    ensures !SentInOrder(f, mine)
  {
    assert [b] + [a] == [b, a];
    NotSwapped(a, b);
  }

  lemma NotSwapped<T(!new)>(a: T, b: T)
    requires a != b
    ensures !Within([b, a], [a, b])
  {
    forall at ensures !InOrder([b, a], [a, b], at) {
      if |at| == 2 && at[0] < at[1] < 2 {
        assert at[0] == 0 && [a, b][0] == a && [b, a][0] == b;
      }
    }
  }
}
