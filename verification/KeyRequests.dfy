/** When a key request may go out: not while an answer is being put together, and not too often. */
module KeyRequests {
  import opened Base
  import opened Limiters
  import opened Nicks

  const KEYREQ_INTERVAL: nat := 30

  // ---- the reassembly gate ----

  /** The last fragment of each message of each folded nickname. */
  datatype GateState = GateState(mapping: Option<CaseMapping>, last: map<string, map<string, nat>>)

  const NO_FRAGMENTS: GateState := GateState(None, map[])

  function SyncGate(s: GateState, mapping: CaseMapping): GateState {
    if s.mapping == Some(mapping) then s else GateState(Some(mapping), map[])
  }

  function YoungOnly(timeout: nat, messages: map<string, nat>, now: nat): map<string, nat> {
    map id | id in messages && Age(now, messages[id]) < timeout :: messages[id]
  }

  function NoteFragment(timeout: nat, s: GateState, nick: string, msgid: string, mapping: CaseMapping, now: nat): GateState {
    var synced, key := SyncGate(s, mapping), Fold(mapping, nick);
    var messages := if key in synced.last then synced.last[key] else map[];
    synced.(last := synced.last[key := YoungOnly(timeout, messages, now)[msgid := now]])
  }

  function FinishMessage(s: GateState, nick: string, msgid: string, mapping: CaseMapping): GateState {
    var synced, key := SyncGate(s, mapping), Fold(mapping, nick);
    if key !in synced.last then synced
    else
      var messages := synced.last[key] - {msgid};
      synced.(last := if messages == map[] then synced.last - {key} else synced.last[key := messages])
  }

  function ForgetPeer(s: GateState, nick: string, mapping: CaseMapping): GateState {
    var synced := SyncGate(s, mapping);
    synced.(last := synced.last - {Fold(mapping, nick)})
  }

  predicate AnyYoung(timeout: nat, messages: map<string, nat>, now: nat) {
    exists id :: id in messages && Age(now, messages[id]) < timeout
  }

  predicate IsActive(timeout: nat, s: GateState, nick: string, mapping: CaseMapping, now: nat) {
    var synced, key := SyncGate(s, mapping), Fold(mapping, nick);
    key in synced.last && AnyYoung(timeout, synced.last[key], now)
  }

  class ReassemblyGate {
    const timeout: nat
    var mapping: Option<CaseMapping>
    var lastFragment: map<string, map<string, nat>>

    constructor (timeout: nat)
      ensures this.timeout == timeout && State() == NO_FRAGMENTS
    {
      this.timeout := timeout;
      mapping := None;
      lastFragment := map[];
    }

    ghost function State(): GateState
      reads this
    {
      GateState(mapping, lastFragment)
    }

    method SyncMapping(mapping: CaseMapping)
      modifies this
      ensures State() == SyncGate(old(State()), mapping)
    {
      if this.mapping != Some(mapping) {
        lastFragment := map[];
        this.mapping := Some(mapping);
      }
    }

    method Note(nick: string, msgid: string, mapping: CaseMapping, now: nat)
      modifies this
      ensures State() == NoteFragment(timeout, old(State()), nick, msgid, mapping, now)
    {
      SyncMapping(mapping);
      var key := Fold(mapping, nick);
      var messages := if key in lastFragment then lastFragment[key] else map[];
      messages := YoungOnly(timeout, messages, now);
      messages := messages[msgid := now];
      lastFragment := lastFragment[key := messages];
    }

    method Finish(nick: string, msgid: string, mapping: CaseMapping)
      modifies this
      ensures State() == FinishMessage(old(State()), nick, msgid, mapping)
    {
      SyncMapping(mapping);
      var key := Fold(mapping, nick);
      if key in lastFragment {
        var messages := lastFragment[key] - {msgid};
        lastFragment := lastFragment[key := messages];
        if messages == map[] {
          lastFragment := lastFragment - {key};
          assert lastFragment == SyncGate(old(State()), mapping).last - {key};
        }
      }
    }

    method Forget(nick: string, mapping: CaseMapping)
      modifies this
      ensures State() == ForgetPeer(old(State()), nick, mapping)
    {
      SyncMapping(mapping);
      lastFragment := lastFragment - {Fold(mapping, nick)};
    }

    method Active(nick: string, mapping: CaseMapping, now: nat) returns (active: bool)
      modifies this
      ensures State() == SyncGate(old(State()), mapping)
      ensures active == IsActive(timeout, old(State()), nick, mapping, now)
    {
      SyncMapping(mapping);
      var key := Fold(mapping, nick);
      active := key in lastFragment && AnyYoung(timeout, lastFragment[key], now);
    }
  }

  // ---- the pacer ----

  datatype Refusal = Reassembling | Interval

  datatype PacerState = PacerState(limiter: IntervalState, gate: GateState)

  const FIRST_STATE: PacerState := PacerState(NO_INTERVALS, NO_FRAGMENTS)

  function SyncBoth(s: PacerState, mapping: CaseMapping): PacerState {
    PacerState(SyncInterval(s.limiter, mapping), SyncGate(s.gate, mapping))
  }

  function TrySend(timeout: nat, s: PacerState, nick: string, mapping: CaseMapping, now: nat): (PacerState, Result<(), Refusal>) {
    var synced := SyncBoth(s, mapping);
    if IsActive(timeout, synced.gate, nick, mapping, now) then (synced, Err(Reassembling))
    else
      var (limiter, granted) := TryInterval(KEYREQ_INTERVAL, synced.limiter, nick, mapping, now);
      (synced.(limiter := limiter), if granted then Ok(()) else Err(Interval))
  }

  class KeyReqPacer {
    const limiter: IntervalLimiter
    const gate: ReassemblyGate

    constructor (timeout: nat)
      ensures limiter.interval == KEYREQ_INTERVAL && gate.timeout == timeout
      ensures State() == FIRST_STATE && fresh(limiter) && fresh(gate)
    {
      limiter := new IntervalLimiter(KEYREQ_INTERVAL);
      gate := new ReassemblyGate(timeout);
    }

    ghost function State(): PacerState
      reads limiter, gate
    {
      PacerState(limiter.State(), gate.State())
    }

    method SyncMapping(mapping: CaseMapping)
      modifies limiter, gate
      ensures State() == SyncBoth(old(State()), mapping)
    {
      limiter.SyncMapping(mapping);
      gate.SyncMapping(mapping);
    }

    method Note(nick: string, msgid: string, mapping: CaseMapping, now: nat)
      modifies limiter, gate
      ensures State() == PacerState(SyncInterval(old(limiter.State()), mapping),
                           NoteFragment(gate.timeout, old(gate.State()), nick, msgid, mapping, now))
    {
      SyncMapping(mapping);
      gate.Note(nick, msgid, mapping, now);
    }

    method Finish(nick: string, msgid: string, mapping: CaseMapping)
      modifies limiter, gate
      ensures State() == PacerState(SyncInterval(old(limiter.State()), mapping),
                           FinishMessage(old(gate.State()), nick, msgid, mapping))
    {
      SyncMapping(mapping);
      gate.Finish(nick, msgid, mapping);
    }

    method Send(nick: string, mapping: CaseMapping, now: nat) returns (r: Result<(), Refusal>)
      requires limiter.interval == KEYREQ_INTERVAL
      modifies limiter, gate
      ensures (State(), r) == TrySend(gate.timeout, old(State()), nick, mapping, now)
    {
      SyncMapping(mapping);
      var active := gate.Active(nick, mapping, now);
      if active {
        return Err(Reassembling);
      }
      var granted := limiter.TryAcquire(nick, mapping, now);
      r := if granted then Ok(()) else Err(Interval);
    }

    method Forget(nick: string, mapping: CaseMapping)
      modifies limiter, gate
      ensures State() == PacerState(ForgetInterval(old(limiter.State()), nick, mapping),
                           ForgetPeer(old(gate.State()), nick, mapping))
    {
      SyncMapping(mapping);
      limiter.Forget(nick, mapping);
      gate.Forget(nick, mapping);
    }
  }

  // ---- against the history ----

  /** What the pacer was told or asked, with its time and the answer to a question. */
  datatype Event =
    | Fragment(now: nat, mapping: CaseMapping, nick: string, msgid: string)
    | Finished(now: nat, mapping: CaseMapping, nick: string, msgid: string)
    | Asked(now: nat, mapping: CaseMapping, nick: string, answer: Result<(), Refusal>)
    | Gone(now: nat, mapping: CaseMapping, nick: string)

  /** The last fragment of a message, when nothing ended it and the mapping stayed. */
  function LastFragment(events: seq<Event>, mapping: CaseMapping, key: string, msgid: string): Option<nat> {
    if events == [] then None
    else
      var e := events[|events| - 1];
      var before := events[..|events| - 1];
      if e.mapping != mapping then None
      else if e.Asked? || Fold(mapping, e.nick) != key then LastFragment(before, mapping, key, msgid)
      else match e
      case Fragment(now, _, _, id) => if id == msgid then Some(now) else LastFragment(before, mapping, key, msgid)
      case Finished(_, _, _, id) => if id == msgid then None else LastFragment(before, mapping, key, msgid)
      case Gone(_, _, _) => None
  }

  /** Some message of the nickname is being put together, by the whole history. */
  ghost predicate Assembling(timeout: nat, events: seq<Event>, nick: string, mapping: CaseMapping, now: nat) {
    exists msgid :: IsYoung(timeout, LastFragment(events, mapping, Fold(mapping, nick), msgid), now)
  }

  predicate IsYoung(timeout: nat, fragment: Option<nat>, now: nat) {
    fragment.Some? && Age(now, fragment.value) < timeout
  }

  function Entry(s: GateState, key: string, msgid: string): Option<nat> {
    if key in s.last && msgid in s.last[key] then Some(s.last[key][msgid]) else None
  }

  /** The gate holds what the history says, and may lack what is too old. */
  predicate Agrees(timeout: nat, entry: Option<nat>, fragment: Option<nat>, now: nat) {
    (entry.Some? ==> fragment == entry) && (IsYoung(timeout, fragment, now) ==> entry == fragment)
  }

  ghost predicate GateAgrees(timeout: nat, s: GateState, events: seq<Event>, mapping: CaseMapping, now: nat) {
    forall key, msgid {:trigger Entry(s, key, msgid)} ::
      Agrees(timeout, Entry(s, key, msgid), LastFragment(events, mapping, key, msgid), now)
  }

  ghost predicate GateFollows(timeout: nat, s: GateState, events: seq<Event>, now: nat) {
    if events == [] then s == NO_FRAGMENTS
    else
      var mapping := events[|events| - 1].mapping;
      s.mapping == Some(mapping) && GateAgrees(timeout, s, events, mapping, now)
  }

  lemma LastFragmentAfter(events: seq<Event>, e: Event, key: string, msgid: string)
    ensures LastFragment(events + [e], e.mapping, key, msgid) ==
      if e.Asked? || Fold(e.mapping, e.nick) != key then LastFragment(events, e.mapping, key, msgid)
      else if e.Gone? then None
      else if e.msgid != msgid then LastFragment(events, e.mapping, key, msgid)
      else if e.Fragment? then Some(e.now) else None
  {
    assert (events + [e])[..|events|] == events;
  }

  lemma SyncAgrees(timeout: nat, s: GateState, events: seq<Event>, mapping: CaseMapping, earlier: nat, now: nat)
    requires GateFollows(timeout, s, events, earlier) && earlier <= now
    ensures GateAgrees(timeout, SyncGate(s, mapping), events, mapping, now)
  {
    var synced := SyncGate(s, mapping);
    forall key, msgid ensures Agrees(timeout, Entry(synced, key, msgid), LastFragment(events, mapping, key, msgid), now) {
      if s.mapping == Some(mapping) {
        assert Agrees(timeout, Entry(s, key, msgid), LastFragment(events, mapping, key, msgid), earlier);
      }
    }
  }

  /** The gate after one event. */
  function GateNext(timeout: nat, s: GateState, e: Event): GateState {
    match e
    case Fragment(now, mapping, nick, msgid) => NoteFragment(timeout, s, nick, msgid, mapping, now)
    case Finished(_, mapping, nick, msgid) => FinishMessage(s, nick, msgid, mapping)
    case Asked(_, mapping, _, _) => SyncGate(s, mapping)
    case Gone(_, mapping, nick) => ForgetPeer(s, nick, mapping)
  }

  lemma EntryNext(timeout: nat, s: GateState, e: Event, key: string, msgid: string)
    ensures var synced := SyncGate(s, e.mapping);
      Entry(GateNext(timeout, s, e), key, msgid) ==
        if e.Asked? || Fold(e.mapping, e.nick) != key then Entry(synced, key, msgid)
        else if e.Gone? then None
        else if e.msgid == msgid then (if e.Fragment? then Some(e.now) else None)
        else if e.Finished? then Entry(synced, key, msgid)
        else if IsYoung(timeout, Entry(synced, key, msgid), e.now) then Entry(synced, key, msgid) else None
  {
    var synced := SyncGate(s, e.mapping);
    if e.Finished? && key in synced.last {
      var messages := synced.last[key] - {e.msgid};
      assert messages == map[] ==> (forall id :: id in synced.last[key] ==> id == e.msgid || id in messages);
    }
  }

  /** Pruning is invisible: after every event the gate still agrees with the whole history. */
  lemma GateKeepsUp(timeout: nat, s: GateState, events: seq<Event>, earlier: nat, e: Event)
    requires GateFollows(timeout, s, events, earlier) && earlier <= e.now
    ensures GateFollows(timeout, GateNext(timeout, s, e), events + [e], e.now)
  {
    var s' := GateNext(timeout, s, e);
    SyncAgrees(timeout, s, events, e.mapping, earlier, e.now);
    forall key, msgid
      ensures Agrees(timeout, Entry(s', key, msgid), LastFragment(events + [e], e.mapping, key, msgid), e.now)
    {
      EntryNext(timeout, s, e, key, msgid);
      LastFragmentAfter(events, e, key, msgid);
      assert Agrees(timeout, Entry(SyncGate(s, e.mapping), key, msgid), LastFragment(events, e.mapping, key, msgid), e.now);
    }
  }

  /** The gate is closed for a nickname exactly when a message of it is being put together in the history. */
  lemma ActiveMeansAssembling(timeout: nat, s: GateState, events: seq<Event>, earlier: nat, nick: string, mapping: CaseMapping, now: nat)
    requires GateFollows(timeout, s, events, earlier) && earlier <= now
    ensures IsActive(timeout, s, nick, mapping, now) <==> Assembling(timeout, events, nick, mapping, now)
  {
    var synced, key := SyncGate(s, mapping), Fold(mapping, nick);
    SyncAgrees(timeout, s, events, mapping, earlier, now);
    if IsActive(timeout, s, nick, mapping, now) {
      var id :| id in synced.last[key] && Age(now, synced.last[key][id]) < timeout;
      assert Agrees(timeout, Entry(synced, key, id), LastFragment(events, mapping, key, id), now);
      assert IsYoung(timeout, LastFragment(events, mapping, key, id), now);
    }
    if Assembling(timeout, events, nick, mapping, now) {
      var id :| IsYoung(timeout, LastFragment(events, mapping, key, id), now);
      assert Agrees(timeout, Entry(synced, key, id), LastFragment(events, mapping, key, id), now);
      assert id in synced.last[key] && Age(now, synced.last[key][id]) < timeout;
    }
  }

  // ---- runs of the pacer ----

  datatype Call =
    | NoteCall(now: nat, mapping: CaseMapping, nick: string, msgid: string)
    | FinishCall(now: nat, mapping: CaseMapping, nick: string, msgid: string)
    | SendCall(now: nat, mapping: CaseMapping, nick: string)
    | ForgetCall(now: nat, mapping: CaseMapping, nick: string)

  predicate Forward(calls: seq<Call>) {
    forall i, j :: 0 <= i < j < |calls| ==> calls[i].now <= calls[j].now
  }

  function Next(timeout: nat, s: PacerState, call: Call): (PacerState, Event) {
    match call
    case NoteCall(now, mapping, nick, msgid) =>
      (PacerState(SyncInterval(s.limiter, mapping), NoteFragment(timeout, s.gate, nick, msgid, mapping, now)),
       Fragment(now, mapping, nick, msgid))
    case FinishCall(now, mapping, nick, msgid) =>
      (PacerState(SyncInterval(s.limiter, mapping), FinishMessage(s.gate, nick, msgid, mapping)),
       Finished(now, mapping, nick, msgid))
    case SendCall(now, mapping, nick) =>
      var (s', r) := TrySend(timeout, s, nick, mapping, now);
      (s', Asked(now, mapping, nick, r))
    case ForgetCall(now, mapping, nick) =>
      (PacerState(ForgetInterval(s.limiter, nick, mapping), ForgetPeer(s.gate, nick, mapping)), Gone(now, mapping, nick))
  }

  function Run(timeout: nat, calls: seq<Call>): (PacerState, seq<Event>) {
    if calls == [] then (FIRST_STATE, [])
    else
      var (s, events) := Run(timeout, calls[..|calls| - 1]);
      var (s', e) := Next(timeout, s, calls[|calls| - 1]);
      (s', events + [e])
  }

  /** What an event means to the interval limiter. */
  function DeedOf(e: Event): Deed {
    match e
    case Asked(now, mapping, nick, Ok(_)) => Granted(nick, mapping, now)
    case Gone(_, mapping, nick) => Forgot(nick, mapping)
    case _ => Other(e.mapping)
  }

  function Deeds(events: seq<Event>): seq<Deed> {
    seq(|events|, i requires 0 <= i < |events| => DeedOf(events[i]))
  }

  lemma DeedsAppend(events: seq<Event>, e: Event)
    ensures Deeds(events + [e]) == Deeds(events) + [DeedOf(e)]
  {
  }

  ghost predicate Refines(timeout: nat, s: PacerState, events: seq<Event>, now: nat) {
    Tracks(s.limiter, Deeds(events)) && GateFollows(timeout, s.gate, events, now)
  }

  /** The answer that the history calls for. */
  ghost function RightAnswer(timeout: nat, before: seq<Event>, nick: string, mapping: CaseMapping, now: nat): Result<(), Refusal> {
    if Assembling(timeout, before, nick, mapping, now) then Err(Reassembling)
    else if Open(30, Deeds(before), nick, mapping, now) then Ok(())
    else Err(Interval)
  }

  lemma SyncedGateIsSame(timeout: nat, s: GateState, nick: string, mapping: CaseMapping, now: nat)
    ensures IsActive(timeout, SyncGate(s, mapping), nick, mapping, now) == IsActive(timeout, s, nick, mapping, now)
  {
  }

  lemma SendRefines(timeout: nat, s: PacerState, events: seq<Event>, earlier: nat, nick: string, mapping: CaseMapping, now: nat)
    requires Refines(timeout, s, events, earlier) && earlier <= now
    ensures var (s', r) := TrySend(timeout, s, nick, mapping, now);
      && r == RightAnswer(timeout, events, nick, mapping, now)
      && Tracks(s'.limiter, Deeds(events + [Asked(now, mapping, nick, r)]))
      && s'.gate == SyncGate(s.gate, mapping)
  {
    var (s', r) := TrySend(timeout, s, nick, mapping, now);
    DeedsAppend(events, Asked(now, mapping, nick, r));
    SyncedGateIsSame(timeout, s.gate, nick, mapping, now);
    ActiveMeansAssembling(timeout, s.gate, events, earlier, nick, mapping, now);
    TracksOther(s.limiter, Deeds(events), mapping);
    TracksAsk(KEYREQ_INTERVAL, s.limiter, Deeds(events), nick, mapping, now);
    assert TryInterval(KEYREQ_INTERVAL, SyncInterval(s.limiter, mapping), nick, mapping, now)
        == TryInterval(KEYREQ_INTERVAL, s.limiter, nick, mapping, now);
  }

  lemma NextRefines(timeout: nat, s: PacerState, events: seq<Event>, earlier: nat, call: Call)
    requires Refines(timeout, s, events, earlier) && earlier <= call.now
    ensures var (s', e) := Next(timeout, s, call);
      && Refines(timeout, s', events + [e], call.now)
      && (call.SendCall? ==> e == Asked(call.now, call.mapping, call.nick, RightAnswer(timeout, events, call.nick, call.mapping, call.now)))
  {
    var (s', e) := Next(timeout, s, call);
    DeedsAppend(events, e);
    GateKeepsUp(timeout, s.gate, events, earlier, e);
    match call
    case SendCall(now, mapping, nick) => SendRefines(timeout, s, events, earlier, nick, mapping, now);
    case ForgetCall(_, mapping, nick) => TracksForget(s.limiter, Deeds(events), nick, mapping);
    case _ => TracksOther(s.limiter, Deeds(events), call.mapping);
  }

  function LastTime(calls: seq<Call>): nat {
    if calls == [] then 0 else calls[|calls| - 1].now
  }

  /** The pacer refines its whole history, under a clock that never goes back. */
  lemma {:induction false} RunRefines(timeout: nat, calls: seq<Call>)
    requires Forward(calls)
    ensures Refines(timeout, Run(timeout, calls).0, Run(timeout, calls).1, LastTime(calls))
    decreases |calls|
  {
    if calls != [] {
      var init := calls[..|calls| - 1];
      RunRefines(timeout, init);
      NextRefines(timeout, Run(timeout, init).0, Run(timeout, init).1, LastTime(init), calls[|calls| - 1]);
    }
  }

  lemma {:induction false} RunLength(timeout: nat, calls: seq<Call>)
    ensures |Run(timeout, calls).1| == |calls|
    decreases |calls|
  {
    if calls != [] {
      RunLength(timeout, calls[..|calls| - 1]);
    }
  }

  lemma {:induction false} EventsStay(timeout: nat, calls: seq<Call>, k: nat)
    requires k <= |calls|
    ensures |Run(timeout, calls).1| == |calls| && Run(timeout, calls).1[..k] == Run(timeout, calls[..k]).1
    decreases |calls|
  {
    RunLength(timeout, calls);
    if k < |calls| {
      var init := calls[..|calls| - 1];
      EventsStay(timeout, init, k);
      assert init[..k] == calls[..k];
      assert Run(timeout, calls).1[..k] == Run(timeout, init).1[..k];
    } else {
      assert calls[..k] == calls;
    }
  }

  /**
   * Every question is answered by the events before it: refused while a message of the nickname is being
   * put together, else refused while the interval of its last request runs, else granted.
   */
  lemma AnswersAreRight(timeout: nat, calls: seq<Call>, k: nat)
    requires Forward(calls) && k < |calls| && calls[k].SendCall?
    ensures |Run(timeout, calls).1| == |calls|
    ensures var c, before := calls[k], Run(timeout, calls).1[..k];
      Run(timeout, calls).1[k] == Asked(c.now, c.mapping, c.nick, RightAnswer(timeout, before, c.nick, c.mapping, c.now))
  {
    EventsStay(timeout, calls, k + 1);
    EventsStay(timeout, calls, k);
    RunRefines(timeout, calls[..k]);
    assert calls[..k + 1][..k] == calls[..k];
    assert Run(timeout, calls).1[k] == Run(timeout, calls).1[..k + 1][k];
    NextRefines(timeout, Run(timeout, calls[..k]).0, Run(timeout, calls[..k]).1, LastTime(calls[..k]), calls[k]);
  }

  predicate IsGrant(e: Event) {
    e.Asked? && e.answer.Ok?
  }

  lemma {:induction false} EventTimes(timeout: nat, calls: seq<Call>)
    ensures |Run(timeout, calls).1| == |calls|
    ensures forall i :: 0 <= i < |calls| ==> Run(timeout, calls).1[i].now == calls[i].now
    ensures forall i :: 0 <= i < |calls| ==> Run(timeout, calls).1[i].mapping == calls[i].mapping
    decreases |calls|
  {
    if calls != [] {
      EventTimes(timeout, calls[..|calls| - 1]);
    }
  }

  /** Each call stands in the history as what it was, with its own time, mapping, nickname and message. */
  ghost predicate IsEventOf(e: Event, call: Call) {
    && e.now == call.now && e.mapping == call.mapping && e.nick == call.nick
    && (call.NoteCall? ==> e.Fragment? && e.msgid == call.msgid)
    && (call.FinishCall? ==> e.Finished? && e.msgid == call.msgid)
    && (call.SendCall? ==> e.Asked?)
    && (call.ForgetCall? ==> e.Gone?)
  }

  lemma {:induction false} HistoryIsOfCalls(timeout: nat, calls: seq<Call>)
    ensures |Run(timeout, calls).1| == |calls|
    ensures forall i :: 0 <= i < |calls| ==> IsEventOf(Run(timeout, calls).1[i], calls[i])
    decreases |calls|
  {
    if calls != [] {
      HistoryIsOfCalls(timeout, calls[..|calls| - 1]);
    }
  }

  lemma DeedsForward(events: seq<Event>)
    requires forall i, j :: 0 <= i < j < |events| ==> events[i].now <= events[j].now
    ensures ClockForward(Deeds(events))
  {
  }

  lemma DeedsUndisturbed(events: seq<Event>, i: nat, j: nat, mapping: CaseMapping, nick: string)
    requires i < j <= |events| && IsGrant(events[i])
    requires forall k :: i <= k < j ==> events[k].mapping == mapping
    requires forall k :: i < k < j && events[k].Gone? ==> !SameNick(mapping, events[k].nick, nick)
    ensures Undisturbed(Deeds(events)[..j], i, mapping, Fold(mapping, nick))
  {
  }

  /**
   * Two requests to one nickname are thirty seconds apart, when the mapping stays and the nickname is not
   * forgotten between them.
   */
  lemma RequestsAreSpaced(timeout: nat, calls: seq<Call>, i: nat, j: nat)
    requires Forward(calls) && i < j < |calls| && |Run(timeout, calls).1| == |calls|
    requires IsGrant(Run(timeout, calls).1[i]) && IsGrant(Run(timeout, calls).1[j]) && calls[j].SendCall?
    requires forall k :: i <= k <= j ==> calls[k].mapping == calls[i].mapping
    requires SameNick(calls[i].mapping, Run(timeout, calls).1[i].nick, calls[j].nick)
    requires forall k :: i < k < j && Run(timeout, calls).1[k].Gone? ==>
      !SameNick(calls[i].mapping, Run(timeout, calls).1[k].nick, calls[j].nick)
    ensures calls[j].now - calls[i].now >= 30
  {
    var events := Run(timeout, calls).1;
    EventTimes(timeout, calls);
    AnswersAreRight(timeout, calls, j);
    DeedsForward(events);
    DeedsUndisturbed(events, i, j, calls[i].mapping, events[i].nick);
    assert Deeds(events)[..j] == Deeds(events[..j]);
    GrantsAreSpaced(KEYREQ_INTERVAL, Deeds(events), i, j);
  }

  /** No nickname of the gate is without a message, in any run: a nickname with nothing left takes no room. */
  lemma {:induction false} NoEmptyNick(timeout: nat, calls: seq<Call>)
    ensures forall key :: key in Run(timeout, calls).0.gate.last ==> |Run(timeout, calls).0.gate.last[key]| > 0
    decreases |calls|
  {
    if calls != [] {
      var init, call := calls[..|calls| - 1], calls[|calls| - 1];
      NoEmptyNick(timeout, init);
      NextNotEmpty(timeout, Run(timeout, init).0.gate, Next(timeout, Run(timeout, init).0, call).1);
    }
  }

  lemma NextNotEmpty(timeout: nat, s: GateState, e: Event)
    requires forall key :: key in s.last ==> |s.last[key]| > 0
    ensures forall key :: key in GateNext(timeout, s, e).last ==> |GateNext(timeout, s, e).last[key]| > 0
  {
    if e.Fragment? {
      var messages := GateNext(timeout, s, e).last[Fold(e.mapping, e.nick)];
      assert e.msgid in messages;
    }
  }

  /** Both halves of the pacer always stand under one mapping, whatever the clock does. */
  lemma {:induction false} OneMapping(timeout: nat, calls: seq<Call>)
    ensures var s := Run(timeout, calls).0;
      s.limiter.mapping == s.gate.mapping == (if calls == [] then None else Some(calls[|calls| - 1].mapping))
  {
  }
}
