/** Outgoing messages that wait for a key: none is lost or doubled, and none leaves late. */
module OutgoingQueues {
  import opened Filters
  import opened Nicks

  const OUTGOING_QUEUE_TTL: nat := 90
  const OUTGOING_QUEUE_MAX: nat := 16
  const SEND_SAFETY_MARGIN: nat := 2

  datatype SendKey = SendKey(network: string, target: string, msgid: string)

  datatype QueuedSend = QueuedSend(key: SendKey, deadline: nat)

  datatype DropReason = Late | SessionEnded

  datatype SendDropped = SendDropped(key: SendKey, reason: DropReason)

  /** A send goes only when `now` and the margin are before the deadline. */
  predicate InTime(now: nat, deadline: nat) {
    now + SEND_SAFETY_MARGIN < deadline
  }

  function IsLive(now: nat): QueuedSend -> bool {
    (item: QueuedSend) => InTime(now, item.deadline)
  }

  function IsFor(target: string, mapping: CaseMapping): QueuedSend -> bool {
    (item: QueuedSend) => SameNick(mapping, item.key.target, target)
  }

  function IsOther(key: SendKey): QueuedSend -> bool {
    (item: QueuedSend) => item.key != key
  }

  function Drops(items: seq<QueuedSend>, reason: DropReason): seq<SendDropped> {
    seq(|items|, i requires 0 <= i < |items| => SendDropped(items[i].key, reason))
  }

  /** How many messages wait for a target. */
  function CountFor(items: seq<QueuedSend>, target: string, mapping: CaseMapping): nat {
    |Filter(items, IsFor(target, mapping))|
  }

  /** Where a target first stands in a queue, or the length of a queue without it. */
  ghost function FirstPlace(items: seq<QueuedSend>, target: string): (k: nat)
    ensures k <= |items| && (k < |items| ==> items[k].key.target == target)
    ensures forall j :: 0 <= j < k ==> items[j].key.target != target
  {
    if items == [] || items[0].key.target == target then 0 else 1 + FirstPlace(items[1..], target)
  }

  datatype Call =
    | PushCall(key: SendKey, mapping: CaseMapping, now: nat)
    | ExpireCall(now: nat)
    | TakeCall(now: nat, ready: QueuedSend -> bool)
    | RemoveCall(key: SendKey)
    | RestoreCall(item: QueuedSend)
    | EndCall

  /** The queue after a call. */
  function After(items: seq<QueuedSend>, call: Call): seq<QueuedSend> {
    match call
    case PushCall(key, mapping, now) =>
      if CountFor(items, key.target, mapping) >= OUTGOING_QUEUE_MAX then items
      else items + [QueuedSend(key, now + OUTGOING_QUEUE_TTL)]
    case ExpireCall(now) => Filter(items, IsLive(now))
    case TakeCall(now, ready) => Filter(Filter(items, IsLive(now)), Not(ready))
    case RemoveCall(key) => Filter(items, IsOther(key))
    case RestoreCall(item) => [item] + items
    case EndCall => []
  }

  class OutgoingQueue {
    var items: seq<QueuedSend>

    constructor ()
      ensures items == []
    {
      items := [];
    }

    method LenFor(target: string, mapping: CaseMapping) returns (n: nat)
      ensures n == CountFor(items, target, mapping)
    {
      var wanted := Fold(mapping, target);
      n := 0;
      var i := 0;
      while i < |items|
        invariant i <= |items| && n == |Filter(items[..i], IsFor(target, mapping))|
      {
        FilterAppend(items[..i], items[i], IsFor(target, mapping));
        assert items[..i + 1] == items[..i] + [items[i]];
        if Fold(mapping, items[i].key.target) == wanted {
          n := n + 1;
        }
        i := i + 1;
      }
      assert items[..i] == items;
    }

    method Push(key: SendKey, mapping: CaseMapping, now: nat) returns (ok: bool)
      modifies this
      ensures ok == (CountFor(old(items), key.target, mapping) < OUTGOING_QUEUE_MAX)
      ensures items == After(old(items), PushCall(key, mapping, now))
    {
      var n := LenFor(key.target, mapping);
      if n >= OUTGOING_QUEUE_MAX {
        return false;
      }
      items := items + [QueuedSend(key, now + OUTGOING_QUEUE_TTL)];
      return true;
    }

    method Expire(now: nat) returns (late: seq<SendDropped>)
      modifies this
      ensures items == After(old(items), ExpireCall(now))
      ensures late == Drops(Filter(old(items), Not(IsLive(now))), Late)
    {
      var kept := [];
      late := [];
      var i := 0;
      while i < |items|
        invariant i <= |items| && items == old(items)
        invariant kept == Filter(items[..i], IsLive(now))
        invariant late == Drops(Filter(items[..i], Not(IsLive(now))), Late)
      {
        FilterAppend(items[..i], items[i], IsLive(now));
        FilterAppend(items[..i], items[i], Not(IsLive(now)));
        assert items[..i + 1] == items[..i] + [items[i]];
        if !InTime(now, items[i].deadline) {
          late := late + [SendDropped(items[i].key, Late)];
        } else {
          kept := kept + [items[i]];
        }
        i := i + 1;
      }
      assert items[..i] == items;
      items := kept;
    }

    /** Takes the live messages that are ready, oldest first; the others stay in their order. */
    method TakeMatching(now: nat, ready: QueuedSend -> bool) returns (taken: seq<QueuedSend>, late: seq<SendDropped>)
      modifies this
      ensures late == Drops(Filter(old(items), Not(IsLive(now))), Late)
      ensures taken == Filter(Filter(old(items), IsLive(now)), ready)
      ensures items == After(old(items), TakeCall(now, ready))
    {
      late := Expire(now);
      taken := [];
      var kept := [];
      ghost var live := items;
      var i := 0;
      while i < |items|
        invariant i <= |items| && items == live
        invariant taken == Filter(items[..i], ready) && kept == Filter(items[..i], Not(ready))
      {
        FilterAppend(items[..i], items[i], ready);
        FilterAppend(items[..i], items[i], Not(ready));
        assert items[..i + 1] == items[..i] + [items[i]];
        if ready(items[i]) {
          taken := taken + [items[i]];
        } else {
          kept := kept + [items[i]];
        }
        i := i + 1;
      }
      assert items[..i] == items;
      items := kept;
    }

    method TakeReady(now: nat) returns (taken: seq<QueuedSend>, late: seq<SendDropped>)
      modifies this
      ensures items == []
      ensures taken == Filter(old(items), IsLive(now))
      ensures late == Drops(Filter(old(items), Not(IsLive(now))), Late)
    {
      ghost var live := Filter(old(items), IsLive(now));
      taken, late := TakeMatching(now, _ => true);
      FilterAll(live, _ => true);
      FilterNone(live, Not(_ => true));
    }

    /** The targets of the queue, each one once, in the order of their first messages. */
    method Targets() returns (targets: seq<string>)
      ensures forall t :: t in targets <==> exists item :: item in items && item.key.target == t
      ensures forall i, j :: 0 <= i < j < |targets| ==>
        targets[i] != targets[j] && FirstPlace(items, targets[i]) < FirstPlace(items, targets[j])
    {
      targets := [];
      var i := 0;
      while i < |items|
        invariant i <= |items|
        invariant forall t :: t in targets <==> exists k :: 0 <= k < i && items[k].key.target == t
        invariant forall j :: 0 <= j < |targets| ==> FirstPlace(items, targets[j]) < i
        invariant forall i, j :: 0 <= i < j < |targets| ==> FirstPlace(items, targets[i]) < FirstPlace(items, targets[j])
      {
        if items[i].key.target !in targets {
          targets := targets + [items[i].key.target];
        }
        i := i + 1;
      }
      forall t ensures t in targets <==> exists item :: item in items && item.key.target == t {
        if t in targets {
          var k :| 0 <= k < |items| && items[k].key.target == t;
          assert items[k] in items;
        }
      }
    }

    method Remove(key: SendKey) returns (found: bool)
      modifies this
      ensures items == After(old(items), RemoveCall(key))
      ensures found == exists item :: item in old(items) && item.key == key
    {
      var kept := [];
      var before := |items|;
      var i := 0;
      while i < |items|
        invariant i <= |items| && items == old(items) && kept == Filter(items[..i], IsOther(key))
      {
        FilterAppend(items[..i], items[i], IsOther(key));
        assert items[..i + 1] == items[..i] + [items[i]];
        if items[i].key != key {
          kept := kept + [items[i]];
        }
        i := i + 1;
      }
      assert items[..i] == items;
      FilterShrinks(items, IsOther(key));
      items := kept;
      found := |items| != before;
    }

    /** A taken message goes back to the front, with its first deadline. */
    method Restore(item: QueuedSend)
      modifies this
      ensures items == After(old(items), RestoreCall(item))
    {
      items := [item] + items;
    }

    method EndSession() returns (drops: seq<SendDropped>)
      modifies this
      ensures items == After(old(items), EndCall) && drops == Drops(old(items), SessionEnded)
    {
      drops := Drops(items, SessionEnded);
      items := [];
    }
  }

  /** A filter keeps the length exactly when everything passes. */
  lemma {:induction false} FilterShrinks<T>(s: seq<T>, p: T -> bool)
    ensures |Filter(s, p)| <= |s|
    ensures |Filter(s, p)| == |s| <==> forall x :: x in s ==> p(x)
  {
    if s != [] {
      var init, last := s[..|s| - 1], s[|s| - 1];
      FilterShrinks(init, p);
      assert last in s && forall x :: x in init ==> x in s;
      assert forall x :: x in s ==> x in init || x == last;
    }
  }

  // ---- runs of the queue ----

  /** Where every accepted message is. */
  datatype Ledger = Ledger(
    queued: seq<QueuedSend>,
    accepted: seq<QueuedSend>,
    taken: seq<QueuedSend>,
    late: seq<QueuedSend>,
    removed: seq<QueuedSend>,
    ended: seq<QueuedSend>)

  const EMPTY: Ledger := Ledger([], [], [], [], [], [])

  function Without(items: seq<QueuedSend>, item: QueuedSend): seq<QueuedSend> {
    if items == [] then []
    else if items[0] == item then items[1..]
    else [items[0]] + Without(items[1..], item)
  }

  function Next(l: Ledger, call: Call): Ledger {
    var next := l.(queued := After(l.queued, call));
    match call
    case PushCall(key, mapping, now) =>
      if CountFor(l.queued, key.target, mapping) >= OUTGOING_QUEUE_MAX then l
      else next.(accepted := l.accepted + [QueuedSend(key, now + OUTGOING_QUEUE_TTL)])
    case ExpireCall(now) => next.(late := l.late + Filter(l.queued, Not(IsLive(now))))
    case TakeCall(now, ready) =>
      next.(taken := l.taken + Filter(Filter(l.queued, IsLive(now)), ready),
            late := l.late + Filter(l.queued, Not(IsLive(now))))
    case RemoveCall(key) => next.(removed := l.removed + Filter(l.queued, Not(IsOther(key))))
    case RestoreCall(item) => next.(taken := Without(l.taken, item))
    case EndCall => next.(ended := l.ended + l.queued)
  }

  function Run(l: Ledger, calls: seq<Call>): Ledger
    decreases |calls|
  {
    if calls == [] then l else Run(Next(l, calls[0]), calls[1..])
  }

  /** What is put back had been taken out. */
  predicate Rightful(l: Ledger, call: Call) {
    call.RestoreCall? ==> call.item in l.taken
  }

  predicate AllRightful(l: Ledger, calls: seq<Call>)
    decreases |calls|
  {
    calls == [] || (Rightful(l, calls[0]) && AllRightful(Next(l, calls[0]), calls[1..]))
  }

  /** Every accepted message is at exactly one place. */
  ghost predicate Conserved(l: Ledger) {
    multiset(l.accepted) == multiset(l.queued) + multiset(l.taken) + multiset(l.late) + multiset(l.removed) + multiset(l.ended)
  }

  lemma {:induction false} WithoutOne(items: seq<QueuedSend>, item: QueuedSend)
    requires item in items
    ensures multiset(items) == multiset(Without(items, item)) + multiset{item}
  {
    assert items == [items[0]] + items[1..];
    if items[0] != item {
      WithoutOne(items[1..], item);
    }
  }

  lemma TakeConserves(l: Ledger, now: nat, ready: QueuedSend -> bool)
    requires Conserved(l)
    ensures Conserved(Next(l, TakeCall(now, ready)))
  {
    var live := Filter(l.queued, IsLive(now));
    var dead := Filter(l.queued, Not(IsLive(now)));
    FilterSplits(l.queued, IsLive(now));
    FilterSplits(live, ready);
    assert multiset(l.taken + Filter(live, ready)) == multiset(l.taken) + multiset(Filter(live, ready));
    assert multiset(l.late + dead) == multiset(l.late) + multiset(dead);
  }

  lemma RestoreConserves(l: Ledger, item: QueuedSend)
    requires Conserved(l) && item in l.taken
    ensures Conserved(Next(l, RestoreCall(item)))
  {
    var rest := Without(l.taken, item);
    WithoutOne(l.taken, item);
    assert multiset(l.taken) == multiset(rest) + multiset{item};
    assert multiset([item] + l.queued) == multiset{item} + multiset(l.queued);
    assert Next(l, RestoreCall(item)) == l.(queued := [item] + l.queued, taken := rest);
  }

  lemma PushConserves(l: Ledger, item: QueuedSend)
    requires Conserved(l)
    ensures Conserved(l.(queued := l.queued + [item], accepted := l.accepted + [item]))
  {
    assert multiset(l.queued + [item]) == multiset(l.queued) + multiset{item};
    assert multiset(l.accepted + [item]) == multiset(l.accepted) + multiset{item};
  }

  lemma ExpireConserves(l: Ledger, now: nat)
    requires Conserved(l)
    ensures Conserved(Next(l, ExpireCall(now)))
  {
    FilterSplits(l.queued, IsLive(now));
    var dead := Filter(l.queued, Not(IsLive(now)));
    assert multiset(l.late + dead) == multiset(l.late) + multiset(dead);
  }

  lemma RemoveConserves(l: Ledger, key: SendKey)
    requires Conserved(l)
    ensures Conserved(Next(l, RemoveCall(key)))
  {
    FilterSplits(l.queued, IsOther(key));
    var gone := Filter(l.queued, Not(IsOther(key)));
    assert multiset(l.removed + gone) == multiset(l.removed) + multiset(gone);
  }

  lemma EndConserves(l: Ledger)
    requires Conserved(l)
    ensures Conserved(Next(l, EndCall))
  {
    assert multiset(l.ended + l.queued) == multiset(l.ended) + multiset(l.queued);
  }

  lemma NextConserves(l: Ledger, call: Call)
    requires Conserved(l) && Rightful(l, call)
    ensures Conserved(Next(l, call))
  {
    match call
    case PushCall(key, mapping, now) => PushConserves(l, QueuedSend(key, now + OUTGOING_QUEUE_TTL));
    case TakeCall(now, ready) => TakeConserves(l, now, ready);
    case RestoreCall(item) => RestoreConserves(l, item);
    case ExpireCall(now) => ExpireConserves(l, now);
    case RemoveCall(key) => RemoveConserves(l, key);
    case EndCall => EndConserves(l);
  }

  /** Nothing is lost and nothing is doubled, in any run. */
  lemma {:induction false} NothingIsLost(l: Ledger, calls: seq<Call>)
    requires Conserved(l) && AllRightful(l, calls)
    ensures Conserved(Run(l, calls))
    decreases |calls|
  {
    if calls != [] {
      NextConserves(l, calls[0]);
      NothingIsLost(Next(l, calls[0]), calls[1..]);
    }
  }

  // ---- the order ----

  /** `sub` stands in `s` in its order, at the places `at`. */
  ghost predicate InOrder<T>(sub: seq<T>, s: seq<T>, at: seq<nat>) {
    && |at| == |sub|
    && (forall i :: 0 <= i < |at| ==> at[i] < |s| && s[at[i]] == sub[i])
    && (forall i, j :: 0 <= i < j < |at| ==> at[i] < at[j])
  }

  /** Two parts of a sequence whose places do not meet and cover it. */
  ghost predicate Interleaves<T>(a: seq<T>, atA: seq<nat>, b: seq<T>, atB: seq<nat>, s: seq<T>) {
    InOrder(a, s, atA) && InOrder(b, s, atB) && |a| + |b| == |s| && forall i :: i in atA ==> i !in atB
  }

  lemma InOrderLonger<T>(sub: seq<T>, s: seq<T>, at: seq<nat>, x: T)
    requires InOrder(sub, s, at)
    ensures InOrder(sub, s + [x], at) && InOrder(sub + [x], s + [x], at + [|s|])
  {
  }

  /** What a filter keeps and what it drops keep their order, and together they are the sequence. */
  lemma {:induction false} FilterInterleaves<T>(s: seq<T>, p: T -> bool) returns (kept: seq<nat>, dropped: seq<nat>)
    ensures Interleaves(Filter(s, p), kept, Filter(s, Not(p)), dropped, s)
  {
    if s == [] {
      return [], [];
    }
    var init, last := s[..|s| - 1], s[|s| - 1];
    kept, dropped := FilterInterleaves(init, p);
    InOrderLonger(Filter(init, p), init, kept, last);
    InOrderLonger(Filter(init, Not(p)), init, dropped, last);
    assert s == init + [last];
    FilterAppend(init, last, p);
    FilterAppend(init, last, Not(p));
    if p(last) {
      assert Filter(s, Not(p)) == Filter(init, Not(p));
      kept := kept + [|init|];
    } else {
      assert Filter(s, p) == Filter(init, p);
      dropped := dropped + [|init|];
    }
  }

  // ---- the time ----

  /** Every waiting or taken message was accepted, and its deadline is its push and the lifetime. */
  ghost predicate Dated(items: seq<QueuedSend>, calls: seq<Call>) {
    forall item :: item in items ==> exists k :: 0 <= k < |calls| && PushOf(calls[k], item)
  }

  predicate PushOf(call: Call, item: QueuedSend) {
    call.PushCall? && item == QueuedSend(call.key, call.now + OUTGOING_QUEUE_TTL)
  }

  lemma DatedLonger(items: seq<QueuedSend>, calls: seq<Call>, call: Call)
    requires Dated(items, calls)
    ensures Dated(items, calls + [call])
  {
    forall item | item in items ensures exists k :: 0 <= k < |calls + [call]| && PushOf((calls + [call])[k], item) {
      var k :| 0 <= k < |calls| && PushOf(calls[k], item);
      assert (calls + [call])[k] == calls[k];
    }
  }

  lemma NextDated(l: Ledger, calls: seq<Call>, call: Call)
    requires Dated(l.queued, calls) && Dated(l.taken, calls) && Rightful(l, call)
    ensures Dated(Next(l, call).queued, calls + [call]) && Dated(Next(l, call).taken, calls + [call])
  {
    DatedLonger(l.queued, calls, call);
    DatedLonger(l.taken, calls, call);
    var longer := calls + [call];
    assert longer[|calls|] == call;
    forall item | item in Next(l, call).queued ensures item in l.queued || item in l.taken || PushOf(call, item) {
      NextQueued(l, call, item);
    }
    forall item | item in Next(l, call).taken ensures item in l.queued || item in l.taken {
      NextTaken(l, call, item);
    }
  }

  lemma NextQueued(l: Ledger, call: Call, item: QueuedSend)
    requires item in Next(l, call).queued && Rightful(l, call)
    ensures item in l.queued || item in l.taken || PushOf(call, item)
  {
    match call
    case ExpireCall(now) => FilterMember(l.queued, IsLive(now), item);
    case TakeCall(now, ready) =>
      FilterMember(Filter(l.queued, IsLive(now)), Not(ready), item);
      FilterMember(l.queued, IsLive(now), item);
    case RemoveCall(key) => FilterMember(l.queued, IsOther(key), item);
    case _ =>
  }

  lemma NextTaken(l: Ledger, call: Call, item: QueuedSend)
    requires item in Next(l, call).taken && Rightful(l, call)
    ensures item in l.queued || item in l.taken
  {
    match call
    case TakeCall(now, ready) =>
      FilterMember(Filter(l.queued, IsLive(now)), ready, item);
      FilterMember(l.queued, IsLive(now), item);
    case RestoreCall(back) =>
      WithoutOne(l.taken, back);
      assert item in multiset(l.taken);
    case _ =>
  }

  /** What one take hands out. */
  function TakenBy(l: Ledger, now: nat, ready: QueuedSend -> bool): seq<QueuedSend> {
    Filter(Filter(l.queued, IsLive(now)), ready)
  }

  lemma {:induction false} RunDated(l: Ledger, before: seq<Call>, calls: seq<Call>)
    requires Dated(l.queued, before) && Dated(l.taken, before) && AllRightful(l, calls)
    ensures Dated(Run(l, calls).queued, before + calls) && Dated(Run(l, calls).taken, before + calls)
    decreases |calls|
  {
    if calls == [] {
      assert before + calls == before;
    } else {
      NextDated(l, before, calls[0]);
      RunDated(Next(l, calls[0]), before + [calls[0]], calls[1..]);
      assert before + [calls[0]] + calls[1..] == before + calls;
    }
  }

  /**
   * Every message that is handed out was pushed, and less than 88 seconds ago. After a `restore` the time
   * still runs from the push.
   */
  lemma TakenInTime(calls: seq<Call>, now: nat, ready: QueuedSend -> bool, item: QueuedSend)
    requires AllRightful(EMPTY, calls) && item in TakenBy(Run(EMPTY, calls), now, ready)
    ensures exists k :: 0 <= k < |calls| && PushOf(calls[k], item) && now < calls[k].now + 88
  {
    var l := Run(EMPTY, calls);
    RunDated(EMPTY, [], calls);
    assert [] + calls == calls;
    FilterMember(Filter(l.queued, IsLive(now)), ready, item);
    FilterMember(l.queued, IsLive(now), item);
    var k :| 0 <= k < |calls| && PushOf(calls[k], item);
    assert PushOf(calls[k], item) && now < calls[k].now + 88;
  }

  // ---- the limit ----

  lemma {:induction false} FilteredCount(items: seq<QueuedSend>, p: QueuedSend -> bool, q: QueuedSend -> bool)
    ensures |Filter(Filter(items, p), q)| <= |Filter(items, q)|
  {
    FilterTwice(items, p, q);
    FilterGrows(items, Both(p, q), q);
  }

  /** No nickname has more than sixteen messages waiting. */
  ghost predicate AllLimited(items: seq<QueuedSend>, mapping: CaseMapping) {
    forall target :: CountFor(items, target, mapping) <= 16
  }

  /** After every call of a run no nickname has more than sixteen messages waiting. */
  ghost predicate StaysLimited(l: Ledger, calls: seq<Call>, mapping: CaseMapping)
    decreases |calls|
  {
    AllLimited(l.queued, mapping) && (calls == [] || StaysLimited(Next(l, calls[0]), calls[1..], mapping))
  }

  /** What comes in under `mapping` finds room: the caller can ask `len_for` before the call. */
  predicate FindsRoom(l: Ledger, call: Call, mapping: CaseMapping) {
    match call
    case PushCall(key, m, _) =>
      CountFor(l.queued, key.target, m) >= 16 || CountFor(l.queued, key.target, mapping) < 16
    case RestoreCall(item) => CountFor(l.queued, item.key.target, mapping) < 16
    case _ => true
  }

  predicate AllFindRoom(l: Ledger, calls: seq<Call>, mapping: CaseMapping)
    decreases |calls|
  {
    calls == [] || (FindsRoom(l, calls[0], mapping) && AllFindRoom(Next(l, calls[0]), calls[1..], mapping))
  }

  /** One more message, at either end, counts for its own nickname only. */
  lemma CountWithOne(items: seq<QueuedSend>, item: QueuedSend, target: string, mapping: CaseMapping)
    ensures var more := if SameNick(mapping, item.key.target, target) then 1 else 0;
      && CountFor(items + [item], target, mapping) == CountFor(items, target, mapping) + more
      && CountFor([item] + items, target, mapping) == CountFor(items, target, mapping) + more
  {
    var wanted := IsFor(target, mapping);
    FilterAppend(items, item, wanted);
    FilterAppend([], item, wanted);
    assert [] + [item] == [item];
    FilterConcat([item], items, wanted);
  }

  /** The names of one user have one count. */
  lemma SameCount(items: seq<QueuedSend>, a: string, b: string, mapping: CaseMapping)
    requires SameNick(mapping, a, b)
    ensures CountFor(items, a, mapping) == CountFor(items, b, mapping)
  {
    FilterSame(items, IsFor(a, mapping), IsFor(b, mapping));
  }

  /** The limit holds with one more message exactly when its nickname had room. */
  lemma OneMoreIsLimited(items: seq<QueuedSend>, item: QueuedSend, mapping: CaseMapping)
    requires AllLimited(items, mapping)
    ensures AllLimited(items + [item], mapping) <==> CountFor(items, item.key.target, mapping) < OUTGOING_QUEUE_MAX
    ensures AllLimited([item] + items, mapping) <==> CountFor(items, item.key.target, mapping) < OUTGOING_QUEUE_MAX
  {
    CountWithOne(items, item, item.key.target, mapping);
    forall target
      ensures CountFor(items, item.key.target, mapping) < OUTGOING_QUEUE_MAX ==>
        CountFor(items + [item], target, mapping) <= OUTGOING_QUEUE_MAX
        && CountFor([item] + items, target, mapping) <= OUTGOING_QUEUE_MAX
    {
      CountWithOne(items, item, target, mapping);
      if SameNick(mapping, item.key.target, target) {
        SameCount(items, item.key.target, target, mapping);
      }
    }
  }

  /** A call that only takes out keeps the limit. */
  lemma FewerStayLimited(l: Ledger, call: Call, mapping: CaseMapping)
    requires AllLimited(l.queued, mapping) && !call.PushCall? && !call.RestoreCall?
    ensures AllLimited(After(l.queued, call), mapping)
  {
    forall target ensures CountFor(After(l.queued, call), target, mapping) <= OUTGOING_QUEUE_MAX {
      CountShrinks(l.queued, call, target, mapping);
    }
  }

  lemma CountShrinks(items: seq<QueuedSend>, call: Call, target: string, mapping: CaseMapping)
    requires !call.PushCall? && !call.RestoreCall?
    ensures CountFor(After(items, call), target, mapping) <= CountFor(items, target, mapping)
  {
    var wanted := IsFor(target, mapping);
    match call
    case ExpireCall(now) => FilteredCount(items, IsLive(now), wanted);
    case TakeCall(now, ready) =>
      FilteredCount(Filter(items, IsLive(now)), Not(ready), wanted);
      FilteredCount(items, IsLive(now), wanted);
    case RemoveCall(key) => FilteredCount(items, IsOther(key), wanted);
    case EndCall => assert Filter([], wanted) == [];
  }

  /** One call keeps the limit exactly when what comes in finds room. */
  lemma NextLimited(l: Ledger, call: Call, mapping: CaseMapping)
    requires AllLimited(l.queued, mapping)
    ensures AllLimited(Next(l, call).queued, mapping) <==> FindsRoom(l, call, mapping)
  {
    match call
    case PushCall(key, m, now) => OneMoreIsLimited(l.queued, QueuedSend(key, now + OUTGOING_QUEUE_TTL), mapping);
    case RestoreCall(item) => OneMoreIsLimited(l.queued, item, mapping);
    case _ => FewerStayLimited(l, call, mapping);
  }

  /**
   * The exact condition for the limit, over any run: no nickname ever has more than sixteen messages waiting
   * under `mapping` exactly when every restore, and every push that is not refused, finds room there.
   */
  lemma {:induction false} LimitedWhenRoom(l: Ledger, calls: seq<Call>, mapping: CaseMapping)
    requires AllLimited(l.queued, mapping)
    ensures StaysLimited(l, calls, mapping) <==> AllFindRoom(l, calls, mapping)
    decreases |calls|
  {
    if calls != [] {
      var next := Next(l, calls[0]);
      NextLimited(l, calls[0], mapping);
      if AllLimited(next.queued, mapping) {
        LimitedWhenRoom(next, calls[1..], mapping);
      } else {
        assert !StaysLimited(next, calls[1..], mapping);
      }
    }
  }

  /** The same for the restores alone. */
  predicate RestoresFindRoom(l: Ledger, calls: seq<Call>, mapping: CaseMapping)
    decreases |calls|
  {
    calls == [] ||
    ((calls[0].RestoreCall? ==> CountFor(l.queued, calls[0].item.key.target, mapping) < 16)
     && RestoresFindRoom(Next(l, calls[0]), calls[1..], mapping))
  }

  lemma {:induction false} PushesAlwaysFindRoom(l: Ledger, calls: seq<Call>, mapping: CaseMapping)
    requires forall k :: 0 <= k < |calls| && calls[k].PushCall? ==> calls[k].mapping == mapping
    ensures AllFindRoom(l, calls, mapping) <==> RestoresFindRoom(l, calls, mapping)
    decreases |calls|
  {
    if calls != [] {
      PushesAlwaysFindRoom(Next(l, calls[0]), calls[1..], mapping);
    }
  }

  /**
   * Under one mapping the limit holds after every call exactly when every `restore` is made while its
   * nickname has fewer than sixteen messages waiting. So it always holds without a restore.
   */
  lemma SixteenForEach(l: Ledger, calls: seq<Call>, mapping: CaseMapping)
    requires AllLimited(l.queued, mapping)
    requires forall k :: 0 <= k < |calls| && calls[k].PushCall? ==> calls[k].mapping == mapping
    ensures StaysLimited(l, calls, mapping) <==> RestoresFindRoom(l, calls, mapping)
  {
    LimitedWhenRoom(l, calls, mapping);
    PushesAlwaysFindRoom(l, calls, mapping);
  }

  function Pushes(key: SendKey, mapping: CaseMapping, n: nat): seq<Call> {
    if n == 0 then [] else [PushCall(key, mapping, 0)] + Pushes(key, mapping, n - 1)
  }

  lemma {:induction false} PushesFill(l: Ledger, key: SendKey, mapping: CaseMapping, n: nat)
    requires CountFor(l.queued, key.target, mapping) + n <= OUTGOING_QUEUE_MAX
    ensures CountFor(Run(l, Pushes(key, mapping, n)).queued, key.target, mapping) == CountFor(l.queued, key.target, mapping) + n
    ensures Run(l, Pushes(key, mapping, n)).taken == l.taken
    decreases n
  {
    if n > 0 {
      FilterAppend(l.queued, QueuedSend(key, OUTGOING_QUEUE_TTL), IsFor(key.target, mapping));
      var calls := Pushes(key, mapping, n);
      assert calls[0] == PushCall(key, mapping, 0) && calls[1..] == Pushes(key, mapping, n - 1);
      PushesFill(Next(l, calls[0]), key, mapping, n - 1);
    }
  }

  lemma {:induction false} RunTwo(l: Ledger, a: seq<Call>, b: seq<Call>)
    ensures Run(l, a + b) == Run(Run(l, a), b)
    decreases |a|
  {
    if a == [] {
      assert a + b == b;
    } else {
      assert (a + b)[1..] == a[1..] + b;
      RunTwo(Next(l, a[0]), a[1..], b);
    }
  }

  /**
   * A `restore` can pass the limit: one message is taken, sixteen more are pushed, and the first comes back.
   * So seventeen wait: the last call does not meet the condition of `SixteenForEach`.
   */
  lemma RestorePassesTheLimit(key: SendKey, mapping: CaseMapping)
    ensures var item := QueuedSend(key, OUTGOING_QUEUE_TTL);
      var calls := PushAndTake(key, mapping) + Pushes(key, mapping, 16) + [RestoreCall(item)];
      CountFor(Run(EMPTY, calls).queued, key.target, mapping) == 17
  {
    var item, first, pushes := QueuedSend(key, OUTGOING_QUEUE_TTL), PushAndTake(key, mapping), Pushes(key, mapping, 16);
    var l := OneTaken(key, mapping);
    PushesFill(l, key, mapping, 16);
    RunTwo(EMPTY, first, pushes);
    RunTwo(EMPTY, first + pushes, [RestoreCall(item)]);
    OneMoreBack(Run(l, pushes), item, mapping);
  }

  lemma OneMoreBack(l: Ledger, item: QueuedSend, mapping: CaseMapping)
    ensures CountFor(Run(l, [RestoreCall(item)]).queued, item.key.target, mapping) ==
            CountFor(l.queued, item.key.target, mapping) + 1
  {
    var next := Next(l, RestoreCall(item));
    assert Run(l, [RestoreCall(item)]) == Run(next, [RestoreCall(item)][1..]) == next;
    CountWithOne(l.queued, item, item.key.target, mapping);
  }

  function PushAndTake(key: SendKey, mapping: CaseMapping): seq<Call> {
    [PushCall(key, mapping, 0), TakeCall(0, _ => true)]
  }

  /** A message is pushed and taken: the queue is empty again, and that message is out. */
  lemma OneTaken(key: SendKey, mapping: CaseMapping) returns (l: Ledger)
    ensures l == Run(EMPTY, PushAndTake(key, mapping)) && l.queued == [] && l.taken == [QueuedSend(key, OUTGOING_QUEUE_TTL)]
    ensures CountFor(l.queued, key.target, mapping) == 0
  {
    var item, all := QueuedSend(key, OUTGOING_QUEUE_TTL), (_: QueuedSend) => true;
    var calls := PushAndTake(key, mapping);
    assert Filter([], IsFor(key.target, mapping)) == [];
    var one := Next(EMPTY, calls[0]);
    assert one.queued == [item];
    FilterAll([item], IsLive(0));
    FilterNone([item], Not(all));
    FilterAll([item], all);
    l := Next(one, calls[1]);
    assert Run(one, calls[1..]) == Run(l, calls[1..][1..]) == l;
  }

  /** Two keys whose targets are one user under a coarser mapping only. */
  const PLAIN_KEY: SendKey := SendKey("net", "a{", "m")
  const BRACKET_KEY: SendKey := SendKey("net", "a[", "m")

  lemma TwoNicksOrOne()
    ensures !SameNick(Ascii, PLAIN_KEY.target, BRACKET_KEY.target)
    ensures SameNick(Rfc1459, PLAIN_KEY.target, BRACKET_KEY.target)
  {
    assert Fold(Ascii, "a{")[1] == '{' && Fold(Ascii, "a[")[1] == '[';
    assert Fold(Rfc1459, "a{") == "a{" && Fold(Rfc1459, "a[") == "a{";
  }

  /** Every message of a queue is for one target. */
  predicate AllFor(items: seq<QueuedSend>, target: string) {
    forall i :: 0 <= i < |items| ==> items[i].key.target == target
  }

  lemma FirstPush(l: Ledger, key: SendKey, mapping: CaseMapping, n: nat)
    requires 0 < n && CountFor(l.queued, key.target, mapping) + n <= OUTGOING_QUEUE_MAX
    ensures var item, next := QueuedSend(key, OUTGOING_QUEUE_TTL), Next(l, PushCall(key, mapping, 0));
      && next.queued == l.queued + [item]
      && CountFor(next.queued, key.target, mapping) <= CountFor(l.queued, key.target, mapping) + 1
      && Run(l, Pushes(key, mapping, n)) == Run(next, Pushes(key, mapping, n - 1))
  {
    var calls := Pushes(key, mapping, n);
    assert calls[0] == PushCall(key, mapping, 0) && calls[1..] == Pushes(key, mapping, n - 1);
    CountWithOne(l.queued, QueuedSend(key, OUTGOING_QUEUE_TTL), key.target, mapping);
  }

  lemma {:induction false} PushesAppend(l: Ledger, key: SendKey, mapping: CaseMapping, n: nat) returns (more: seq<QueuedSend>)
    requires CountFor(l.queued, key.target, mapping) + n <= OUTGOING_QUEUE_MAX
    ensures Run(l, Pushes(key, mapping, n)).queued == l.queued + more && |more| == n && AllFor(more, key.target)
    decreases n
  {
    if n == 0 {
      return [];
    }
    var item := QueuedSend(key, OUTGOING_QUEUE_TTL);
    FirstPush(l, key, mapping, n);
    more := PushesAppend(Next(l, PushCall(key, mapping, 0)), key, mapping, n - 1);
    assert l.queued + [item] + more == l.queued + ([item] + more);
    more := [item] + more;
  }

  lemma CountAll(items: seq<QueuedSend>, target: string, wanted: string, mapping: CaseMapping)
    requires AllFor(items, target)
    ensures CountFor(items, wanted, mapping) == if SameNick(mapping, target, wanted) then |items| else 0
  {
    forall item | item in items ensures item.key.target == target {
      var i :| 0 <= i < |items| && items[i] == item;
    }
    if SameNick(mapping, target, wanted) {
      FilterAll(items, IsFor(wanted, mapping));
    } else {
      FilterNone(items, IsFor(wanted, mapping));
    }
  }

  /**
   * A change of the mapping between pushes passes the limit as well: sixteen messages wait for each of two
   * nicknames, and under the new mapping the two are one user with thirty-two.
   */
  lemma NewMappingPassesTheLimit()
    ensures var calls := Pushes(PLAIN_KEY, Ascii, 16) + Pushes(BRACKET_KEY, Ascii, 16);
      CountFor(Run(EMPTY, calls).queued, BRACKET_KEY.target, Rfc1459) == 32
  {
    TwoNicksOrOne();
    assert CountFor(EMPTY.queued, PLAIN_KEY.target, Ascii) == 0;
    var first := PushesAppend(EMPTY, PLAIN_KEY, Ascii, 16);
    var l := Run(EMPTY, Pushes(PLAIN_KEY, Ascii, 16));
    assert l.queued == first;
    CountAll(first, PLAIN_KEY.target, BRACKET_KEY.target, Ascii);
    var second := PushesAppend(l, BRACKET_KEY, Ascii, 16);
    RunTwo(EMPTY, Pushes(PLAIN_KEY, Ascii, 16), Pushes(BRACKET_KEY, Ascii, 16));
    FilterConcat(first, second, IsFor(BRACKET_KEY.target, Rfc1459));
    CountAll(first, PLAIN_KEY.target, BRACKET_KEY.target, Rfc1459);
    CountAll(second, BRACKET_KEY.target, BRACKET_KEY.target, Rfc1459);
  }
}
