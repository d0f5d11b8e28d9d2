/** The catch-up with the relay: only the set of new messages counts, and a stream may be cut anywhere. */
module PairingCatchUp {
  import opened Base
  import opened PairingTypes
  import opened PairingSpec

  function Elems(messages: seq<RelayMessage>): set<RelayMessage> {
    set m | m in messages
  }

  /** The messages above a sequence number. */
  function NewIn(last: nat, messages: seq<RelayMessage>): set<RelayMessage> {
    set m | m in messages && m.seqno > last
  }

  /** The relay gives one message per sequence number. */
  ghost predicate OnePerSeq(messages: seq<RelayMessage>) {
    forall m, n :: m in messages && n in messages && m.seqno == n.seqno ==> m == n
  }

  ghost predicate Strict(s: seq<RelayMessage>) {
    forall i, j :: 0 <= i < j < |s| ==> s[i].seqno < s[j].seqno
  }

  ghost predicate Sorted(s: seq<RelayMessage>) {
    forall i, j :: 0 <= i < j < |s| ==> s[i].seqno <= s[j].seqno
  }

  // ---- the sort ----

  lemma {:induction false} InsertSorts(m: RelayMessage, s: seq<RelayMessage>)
    requires Sorted(s)
    ensures Sorted(InsertBySeq(m, s)) && forall x :: x in InsertBySeq(m, s) <==> x == m || x in s
  {
    if s != [] && m.seqno > s[0].seqno {
      InsertSorts(m, s[1..]);
      var rest := InsertBySeq(m, s[1..]);
      forall j | 0 <= j < |rest| ensures s[0].seqno <= rest[j].seqno {
        assert rest[j] in rest;
      }
      assert forall x :: x in s <==> x == s[0] || x in s[1..];
    }
  }

  lemma {:induction false} SortSorts(messages: seq<RelayMessage>)
    ensures Sorted(SortBySeq(messages)) && forall x :: x in SortBySeq(messages) <==> x in messages
  {
    if messages != [] {
      SortSorts(messages[1..]);
      InsertSorts(messages[0], SortBySeq(messages[1..]));
      assert forall x :: x in messages <==> x == messages[0] || x in messages[1..];
    }
  }

  // ---- what a batch comes down to ----

  /** The messages of a sorted batch that are taken in, each sequence number once. */
  function Taken(last: nat, sorted: seq<RelayMessage>): seq<RelayMessage>
    decreases |sorted|
  {
    if sorted == [] then []
    else if sorted[0].seqno <= last then Taken(last, sorted[1..])
    else [sorted[0]] + Taken(sorted[0].seqno, sorted[1..])
  }

  lemma RestIsSorted(sorted: seq<RelayMessage>)
    requires Sorted(sorted) && OnePerSeq(sorted) && sorted != []
    ensures Sorted(sorted[1..]) && OnePerSeq(sorted[1..])
    ensures forall x :: x in sorted[1..] && x != sorted[0] ==> sorted[0].seqno < x.seqno
  {
    forall x | x in sorted[1..] ensures x in sorted && sorted[0].seqno <= x.seqno {
      var i :| 0 <= i < |sorted| - 1 && sorted[1..][i] == x;
      assert sorted[i + 1] == x;
    }
    assert sorted[0] in sorted;
  }

  lemma OldIsSkipped(last: nat, sorted: seq<RelayMessage>)
    requires sorted != [] && sorted[0].seqno <= last
    ensures NewIn(last, sorted) == NewIn(last, sorted[1..])
  {
    assert forall x :: x in sorted <==> x == sorted[0] || x in sorted[1..];
  }

  lemma NewIsFirst(last: nat, sorted: seq<RelayMessage>, more: seq<RelayMessage>)
    requires sorted != [] && last < sorted[0].seqno && Elems(more) == NewIn(sorted[0].seqno, sorted[1..])
    requires forall x :: x in sorted[1..] && x != sorted[0] ==> sorted[0].seqno < x.seqno
    ensures Elems([sorted[0]] + more) == NewIn(last, sorted)
  {
    var m := sorted[0];
    forall x ensures x in Elems([m] + more) <==> x in NewIn(last, sorted) {
      assert x in sorted <==> x == m || x in sorted[1..];
      assert x in more <==> x in Elems(more);
    }
  }

  lemma StaysStrict(m: RelayMessage, more: seq<RelayMessage>, rest: seq<RelayMessage>)
    requires Strict(more) && Elems(more) == NewIn(m.seqno, rest)
    ensures Strict([m] + more)
  {
    forall j | 0 <= j < |more| ensures m.seqno < more[j].seqno {
      assert more[j] in Elems(more);
    }
  }

  lemma {:induction false} TakenMeans(last: nat, sorted: seq<RelayMessage>)
    requires Sorted(sorted) && OnePerSeq(sorted)
    ensures Strict(Taken(last, sorted)) && Elems(Taken(last, sorted)) == NewIn(last, sorted)
    decreases |sorted|
  {
    if sorted != [] {
      var m, rest := sorted[0], sorted[1..];
      RestIsSorted(sorted);
      if m.seqno <= last {
        TakenMeans(last, rest);
        OldIsSkipped(last, sorted);
      } else {
        TakenMeans(m.seqno, rest);
        StaysStrict(m, Taken(m.seqno, rest), rest);
        NewIsFirst(last, sorted, Taken(m.seqno, rest));
      }
    }
  }

  lemma TakeInSeq(env: Env, s: Session, payload: Payload)
    ensures TakeIn(env, s, payload).0.lastSeq == s.lastSeq
  {
  }

  lemma AcceptOneSeq(env: Env, s: Session, m: RelayMessage)
    ensures AcceptOne(env, s, m).0.lastSeq == if m.seqno > s.lastSeq then m.seqno else s.lastSeq
  {
    TakeInSeq(env, Counted(env, s, m), m.payload);
  }

  lemma {:induction false} OnlyTakenCount(env: Env, s: Session, sorted: seq<RelayMessage>)
    ensures AcceptSorted(env, s, sorted) == AcceptSorted(env, s, Taken(s.lastSeq, sorted))
    decreases |sorted|
  {
    if sorted != [] {
      var m, rest := sorted[0], sorted[1..];
      var s' := AcceptOne(env, s, m).0;
      AcceptOneSeq(env, s, m);
      OnlyTakenCount(env, s', rest);
      if m.seqno <= s.lastSeq {
        BeforeNothing(AcceptSorted(env, s, rest));
      } else {
        assert Taken(s.lastSeq, sorted)[1..] == Taken(m.seqno, rest);
      }
    }
  }

  lemma FirstOfStrict(a: seq<RelayMessage>, x: RelayMessage)
    requires Strict(a) && x in a
    ensures a[0] == x || a[0].seqno < x.seqno
  {
    var i :| 0 <= i < |a| && a[i] == x;
  }

  lemma FirstIsElem(a: seq<RelayMessage>)
    requires a != []
    ensures a[0] in Elems(a)
  {
  }

  lemma ElemsOfTail(a: seq<RelayMessage>)
    requires Strict(a) && a != []
    ensures Elems(a[1..]) == Elems(a) - {a[0]}
  {
    forall x ensures x in Elems(a[1..]) <==> x in Elems(a) && x != a[0] {
      if x in a && x != a[0] {
        var i :| 0 <= i < |a| && a[i] == x;
        assert a[1..][i - 1] == x;
      }
      if x in a[1..] {
        var i :| 0 <= i < |a[1..]| && a[1..][i] == x;
        assert a[i + 1] == x && a[0].seqno < a[i + 1].seqno;
      }
    }
  }

  lemma {:induction false} StrictUnique(a: seq<RelayMessage>, b: seq<RelayMessage>)
    requires Strict(a) && Strict(b) && Elems(a) == Elems(b)
    ensures a == b
    decreases |a|
  {
    if a == [] {
      if b != [] {
        FirstIsElem(b);
      }
    } else {
      assert a[0] in Elems(b) && b != [];
      assert b[0] in Elems(a);
      FirstOfStrict(a, b[0]);
      FirstOfStrict(b, a[0]);
      ElemsOfTail(a);
      ElemsOfTail(b);
      StrictUnique(a[1..], b[1..]);
      assert a == [a[0]] + a[1..] && b == [b[0]] + b[1..];
    }
  }

  /**
   * The result of a batch, state and events, depends only on which new messages it holds: not on their
   * order, on repeats, or on messages that were taken in before.
   */
  lemma OnlyNewMessagesCount(env: Env, s: Session, a: seq<RelayMessage>, b: seq<RelayMessage>)
    requires OnePerSeq(a) && OnePerSeq(b)
    requires NewIn(s.lastSeq, a) == NewIn(s.lastSeq, b)
    ensures Accept(env, s, a) == Accept(env, s, b)
  {
    var x, y := SortBySeq(a), SortBySeq(b);
    SortSorts(a);
    SortSorts(b);
    OnlyTakenCount(env, s, x);
    OnlyTakenCount(env, s, y);
    TakenMeans(s.lastSeq, x);
    TakenMeans(s.lastSeq, y);
    assert NewIn(s.lastSeq, x) == NewIn(s.lastSeq, a);
    assert NewIn(s.lastSeq, y) == NewIn(s.lastSeq, b);
    StrictUnique(Taken(s.lastSeq, x), Taken(s.lastSeq, y));
  }

  // ---- a stream cut into batches ----

  lemma {:induction false} AcceptConcat(env: Env, s: Session, a: seq<RelayMessage>, b: seq<RelayMessage>)
    ensures AcceptSorted(env, s, a + b) ==
      match AcceptSorted(env, s, a)
      case (s', Err(e)) => (s', Err(e))
      case (s', Ok(events)) => Before(events, AcceptSorted(env, s', b))
    decreases |a|
  {
    if a == [] {
      assert a + b == b;
      BeforeNothing(AcceptSorted(env, s, b));
    } else {
      assert (a + b)[0] == a[0] && (a + b)[1..] == a[1..] + b;
      match AcceptOne(env, s, a[0])
      case (s', Err(e)) =>
      case (s', Ok(event)) =>
        AcceptConcat(env, s', a[1..], b);
        match AcceptSorted(env, s', a[1..])
        case (s'', Err(e)) =>
        case (s'', Ok(events)) => BeforeTwice(EventList(event), events, AcceptSorted(env, s'', b));
    }
  }

  lemma BeforeTwice(a: seq<FlowEvent>, b: seq<FlowEvent>, rest: Accepted)
    ensures Before(a, Before(b, rest)) == Before(a + b, rest)
  {
    match rest.1
    case Ok(more) => assert a + (b + more) == (a + b) + more;
    case Err(_) =>
  }

  lemma {:induction false} SortedSeq(env: Env, s: Session, sorted: seq<RelayMessage>)
    requires AcceptSorted(env, s, sorted).1.Ok?
    ensures forall m :: m in sorted ==> m.seqno <= AcceptSorted(env, s, sorted).0.lastSeq
    ensures s.lastSeq <= AcceptSorted(env, s, sorted).0.lastSeq
    ensures AcceptSorted(env, s, sorted).0.lastSeq == s.lastSeq ||
      exists m :: m in sorted && AcceptSorted(env, s, sorted).0.lastSeq == m.seqno
    decreases |sorted|
  {
    if sorted != [] {
      AcceptOneSeq(env, s, sorted[0]);
      SortedSeq(env, AcceptOne(env, s, sorted[0]).0, sorted[1..]);
      assert forall m :: m in sorted <==> m == sorted[0] || m in sorted[1..];
    }
  }

  /** A batch that holds the next part of the stream, in any order, with any messages of the parts before it. */
  ghost predicate Delivers(stream: seq<RelayMessage>, from: nat, to: nat, batch: seq<RelayMessage>) {
    && from <= to <= |stream|
    && (forall i :: from <= i < to ==> stream[i] in batch)
    && (forall m :: m in batch ==> m in stream[..to])
  }

  /** One after the other, the batches deliver the stream from `from` up to `to`. */
  ghost predicate Covers(stream: seq<RelayMessage>, from: nat, to: nat, batches: seq<seq<RelayMessage>>)
    decreases |batches|
  {
    if batches == [] then from == to
    else exists mid: nat :: Delivers(stream, from, mid, batches[0]) && Covers(stream, mid, to, batches[1..])
  }

  /** The catch-up, batch after batch; a session that ended takes no more. */
  function AcceptAll(env: Env, s: Session, batches: seq<seq<RelayMessage>>): Accepted
    decreases |batches|
  {
    if batches == [] then (s, Ok([]))
    else match Accept(env, s, batches[0])
    case (s', Err(e)) => (s', Err(e))
    case (s', Ok(events)) => Before(events, AcceptAll(env, s', batches[1..]))
  }

  lemma StrictIsOnePerSeq(stream: seq<RelayMessage>, to: nat, batch: seq<RelayMessage>)
    requires Strict(stream) && to <= |stream| && forall m :: m in batch ==> m in stream[..to]
    ensures OnePerSeq(batch)
  {
    forall m, n | m in batch && n in batch && m.seqno == n.seqno ensures m == n {
      var i :| 0 <= i < to && stream[..to][i] == m;
      var j :| 0 <= j < to && stream[..to][j] == n;
      assert i == j;
    }
  }

  /** A batch and its part of the stream hold the same new messages. */
  lemma SameNews(last: nat, stream: seq<RelayMessage>, from: nat, to: nat, batch: seq<RelayMessage>)
    requires Delivers(stream, from, to, batch)
    requires forall i :: 0 <= i < from ==> stream[i].seqno <= last
    ensures NewIn(last, batch) == NewIn(last, stream[from..to])
  {
    var part := stream[from..to];
    forall m | m in batch && m.seqno > last ensures m in part {
      var i :| 0 <= i < to && stream[..to][i] == m;
      assert part[i - from] == m;
    }
    forall m | m in part ensures m in batch {
      var i :| 0 <= i < |part| && part[i] == m;
      assert stream[from + i] in batch;
    }
  }

  lemma SliceInPrefix(stream: seq<RelayMessage>, from: nat, to: nat)
    requires from <= to <= |stream|
    ensures forall m :: m in stream[from..to] ==> m in stream[..to]
  {
    forall m | m in stream[from..to] ensures m in stream[..to] {
      var i :| 0 <= i < to - from && stream[from..to][i] == m;
      assert stream[..to][from + i] == m;
    }
  }

  /** A strict list is read as it is. */
  lemma StrictNeedsNoSort(env: Env, s: Session, part: seq<RelayMessage>)
    requires Strict(part) && s.Active()
    ensures Accept(env, s, part) == AcceptSorted(env, s, part)
  {
    SortSorts(part);
    StrictElems(part);
    assert Elems(SortBySeq(part)) == Elems(part);
    OnlyTakenCount(env, s, SortBySeq(part));
    OnlyTakenCount(env, s, part);
    TakenMeans(s.lastSeq, SortBySeq(part));
    TakenMeans(s.lastSeq, part);
    assert NewIn(s.lastSeq, SortBySeq(part)) == NewIn(s.lastSeq, part);
    StrictUnique(Taken(s.lastSeq, SortBySeq(part)), Taken(s.lastSeq, part));
  }

  lemma StrictElems(part: seq<RelayMessage>)
    requires Strict(part)
    ensures OnePerSeq(part)
  {
    forall m, n | m in part && n in part && m.seqno == n.seqno ensures m == n {
      var i :| 0 <= i < |part| && part[i] == m;
      var j :| 0 <= j < |part| && part[j] == n;
    }
  }

  lemma OneBatch(env: Env, s: Session, stream: seq<RelayMessage>, from: nat, to: nat, batch: seq<RelayMessage>)
    requires Strict(stream) && Delivers(stream, from, to, batch) && s.Active()
    requires forall i :: 0 <= i < from ==> stream[i].seqno <= s.lastSeq
    ensures Accept(env, s, batch) == AcceptSorted(env, s, stream[from..to])
  {
    var part := stream[from..to];
    SliceInPrefix(stream, from, to);
    StrictIsOnePerSeq(stream, to, batch);
    StrictIsOnePerSeq(stream, to, part);
    SameNews(s.lastSeq, stream, from, to, batch);
    OnlyNewMessagesCount(env, s, batch, part);
    StrictNeedsNoSort(env, s, part);
  }

  lemma ActiveAfter(env: Env, s: Session, sorted: seq<RelayMessage>)
    requires s.Active() && AcceptSorted(env, s, sorted).1.Ok?
    ensures AcceptSorted(env, s, sorted).0.Active()
    decreases |sorted|
  {
    if sorted != [] {
      var counted := Counted(env, s, sorted[0]);
      if TakeIn(env, counted, sorted[0].payload).1.Ok? {
        TakeInStaysActive(env, counted, sorted[0].payload);
      }
      ActiveAfter(env, AcceptOne(env, s, sorted[0]).0, sorted[1..]);
    }
  }

  lemma TakeInStaysActive(env: Env, s: Session, payload: Payload)
    requires s.Active() && TakeIn(env, s, payload).1.Ok?
    ensures TakeIn(env, s, payload).0.Active()
  {
  }

  lemma PartIsSeen(env: Env, s: Session, stream: seq<RelayMessage>, from: nat, mid: nat)
    requires s.Active() && from <= mid <= |stream|
    requires forall i :: 0 <= i < from ==> stream[i].seqno <= s.lastSeq
    requires AcceptSorted(env, s, stream[from..mid]).1.Ok?
    ensures var s' := AcceptSorted(env, s, stream[from..mid]).0;
      s'.Active() && forall i :: 0 <= i < mid ==> stream[i].seqno <= s'.lastSeq
  {
    ActiveAfter(env, s, stream[from..mid]);
    SortedSeq(env, s, stream[from..mid]);
    forall i | from <= i < mid ensures stream[i] in stream[from..mid] {
      assert stream[from..mid][i - from] == stream[i];
    }
  }

  lemma FirstPart(stream: seq<RelayMessage>, from: nat, to: nat, batches: seq<seq<RelayMessage>>) returns (mid: nat)
    requires Covers(stream, from, to, batches) && batches != [] && to <= |stream|
    ensures from <= mid <= to && Delivers(stream, from, mid, batches[0]) && Covers(stream, mid, to, batches[1..])
    ensures stream[from..to] == stream[from..mid] + stream[mid..to]
  {
    mid :| Delivers(stream, from, mid, batches[0]) && Covers(stream, mid, to, batches[1..]);
    CoversForward(stream, mid, to, batches[1..]);
  }

  lemma FirstThenRest(env: Env, s: Session, first: seq<RelayMessage>, rest: seq<RelayMessage>, batches: seq<seq<RelayMessage>>)
    requires batches != [] && Accept(env, s, batches[0]) == AcceptSorted(env, s, first)
    requires var (s', r) := AcceptSorted(env, s, first);
      r.Ok? ==> AcceptAll(env, s', batches[1..]) == AcceptSorted(env, s', rest)
    ensures AcceptAll(env, s, batches) == AcceptSorted(env, s, first + rest)
  {
    AcceptConcat(env, s, first, rest);
  }

  /**
   * Catch-up. However a stream of the relay is cut into batches, in whatever order each one lists its
   * messages and whatever older messages it repeats, the session ends in the state, and gives the
   * events, of reading the stream once in its order.
   */
  lemma {:induction false} CatchUpIsSafe(env: Env, s: Session, stream: seq<RelayMessage>, from: nat, to: nat,
                                         batches: seq<seq<RelayMessage>>)
    requires Strict(stream) && s.Active() && from <= to <= |stream| && Covers(stream, from, to, batches)
    requires forall i :: 0 <= i < from ==> stream[i].seqno <= s.lastSeq
    ensures AcceptAll(env, s, batches) == AcceptSorted(env, s, stream[from..to])
    decreases |batches|
  {
    if batches == [] {
      assert stream[from..to] == [];
    } else {
      var mid := FirstPart(stream, from, to, batches);
      OneBatch(env, s, stream, from, mid, batches[0]);
      if AcceptSorted(env, s, stream[from..mid]).1.Ok? {
        PartIsSeen(env, s, stream, from, mid);
        CatchUpIsSafe(env, AcceptSorted(env, s, stream[from..mid]).0, stream, mid, to, batches[1..]);
      }
      FirstThenRest(env, s, stream[from..mid], stream[mid..to], batches);
    }
  }

  lemma {:induction false} CoversForward(stream: seq<RelayMessage>, from: nat, to: nat, batches: seq<seq<RelayMessage>>)
    requires Covers(stream, from, to, batches)
    ensures from <= to
    decreases |batches|
  {
    if batches != [] {
      var mid: nat :| Delivers(stream, from, mid, batches[0]) && Covers(stream, mid, to, batches[1..]);
      CoversForward(stream, mid, to, batches[1..]);
    }
  }
}
