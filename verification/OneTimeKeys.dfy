/** The choice between a one-time key and the fallback key. */
module OneTimeKeys {
  import opened Limiters
  import opened Nicks

  const ONE_TIME_KEY_INTERVAL: nat := 60
  const ONE_TIME_KEY_GLOBAL_LIMIT: nat := 30
  const ONE_TIME_KEY_WINDOW: nat := 3600

  datatype KeyChoice = OneTime | Fallback

  datatype PacerState = PacerState(nicks: IntervalState, events: seq<nat>)

  const FIRST_STATE: PacerState := PacerState(NO_INTERVALS, [])

  function ChooseKey(s: PacerState, nick: string, mapping: CaseMapping, now: nat): (PacerState, KeyChoice) {
    var synced := SyncInterval(s.nicks, mapping);
    var young := DropOld(ONE_TIME_KEY_WINDOW, s.events, now);
    if |young| >= ONE_TIME_KEY_GLOBAL_LIMIT then (PacerState(synced, young), Fallback)
    else
      var (nicks, open) := TryInterval(ONE_TIME_KEY_INTERVAL, synced, nick, mapping, now);
      if open then (PacerState(nicks, young + [now]), OneTime) else (PacerState(nicks, young), Fallback)
  }

  class OneTimeKeyPacer {
    const limiter: IntervalLimiter
    const global: WindowLimiter

    constructor ()
      ensures Valid() && State() == FIRST_STATE && fresh(limiter) && fresh(global)
    {
      limiter := new IntervalLimiter(ONE_TIME_KEY_INTERVAL);
      global := new WindowLimiter(ONE_TIME_KEY_GLOBAL_LIMIT, ONE_TIME_KEY_WINDOW);
    }

    predicate Valid() {
      limiter.interval == ONE_TIME_KEY_INTERVAL
      && global.limit == ONE_TIME_KEY_GLOBAL_LIMIT && global.window == ONE_TIME_KEY_WINDOW
    }

    ghost function State(): PacerState
      reads limiter, global
    {
      PacerState(limiter.State(), global.events)
    }

    /** The last try of the global limit never fails: a look just before it found room. */
    method Choose(nick: string, mapping: CaseMapping, now: nat) returns (choice: KeyChoice)
      requires Valid()
      modifies limiter, global
      ensures (State(), choice) == ChooseKey(old(State()), nick, mapping, now)
    {
      limiter.SyncMapping(mapping);
      var ready := global.IsReady(now);
      if ready {
        var open := limiter.TryAcquire(nick, mapping, now);
        if open {
          DropTwice(ONE_TIME_KEY_WINDOW, old(global.events), now);
          var granted := global.TryAcquire(now);
          if granted {
            return OneTime;
          } else {
            assert false;
          }
        }
      }
      return Fallback;
    }
  }

  // ---- against the history ----

  /** One answer of the pacer. */
  datatype Answer = Answer(nick: string, mapping: CaseMapping, now: nat, choice: KeyChoice)

  function DeedOf(a: Answer): Deed {
    if a.choice == OneTime then Granted(a.nick, a.mapping, a.now) else Other(a.mapping)
  }

  function Deeds(answers: seq<Answer>): seq<Deed> {
    seq(|answers|, i requires 0 <= i < |answers| => DeedOf(answers[i]))
  }

  /** The times of the one-time keys, under any mapping. */
  function Times(answers: seq<Answer>): seq<nat> {
    if answers == [] then []
    else
      var last := answers[|answers| - 1];
      Times(answers[..|answers| - 1]) + (if last.choice == OneTime then [last.now] else [])
  }

  /** Both limits are open, by the whole history: thirty in an hour for all, one in a minute for the nickname. */
  predicate BothOpen(before: seq<Answer>, nick: string, mapping: CaseMapping, now: nat) {
    && |Young(3_600, Times(before), now)| < 30
    && Open(60, Deeds(before), nick, mapping, now)
  }

  datatype Ask = Ask(nick: string, mapping: CaseMapping, now: nat)

  predicate Forward(asks: seq<Ask>) {
    forall i, j :: 0 <= i < j < |asks| ==> asks[i].now <= asks[j].now
  }

  /** The pacer and its answers after a run of questions. */
  function Run(asks: seq<Ask>): (PacerState, seq<Answer>) {
    if asks == [] then (FIRST_STATE, [])
    else
      var (s, answers) := Run(asks[..|asks| - 1]);
      var ask := asks[|asks| - 1];
      var (s', choice) := ChooseKey(s, ask.nick, ask.mapping, ask.now);
      (s', answers + [Answer(ask.nick, ask.mapping, ask.now, choice)])
  }

  /** The state of the pacer is what the history of its answers says. */
  ghost predicate Refines(s: PacerState, answers: seq<Answer>, now: nat) {
    && Tracks(s.nicks, Deeds(answers))
    && Holds(ONE_TIME_KEY_WINDOW, s.events, Times(answers), now)
  }

  lemma DeedsAppend(answers: seq<Answer>, a: Answer)
    ensures Deeds(answers + [a]) == Deeds(answers) + [DeedOf(a)]
  {
  }

  lemma TimesAppend(answers: seq<Answer>, a: Answer)
    ensures Times(answers + [a]) == if a.choice == OneTime then Times(answers) + [a.now] else Times(answers)
  {
    assert (answers + [a])[..|answers|] == answers;
  }

  lemma SyncTwice(s: IntervalState, nick: string, mapping: CaseMapping, now: nat)
    ensures TryInterval(ONE_TIME_KEY_INTERVAL, SyncInterval(s, mapping), nick, mapping, now)
      == TryInterval(ONE_TIME_KEY_INTERVAL, s, nick, mapping, now)
  {
  }

  /** A one-time key exactly when both limits are open; the fallback uses neither. */
  lemma ChooseRefines(s: PacerState, answers: seq<Answer>, earlier: nat, nick: string, mapping: CaseMapping, now: nat)
    requires Refines(s, answers, earlier) && earlier <= now
    ensures var (s', choice) := ChooseKey(s, nick, mapping, now);
      && (choice == OneTime <==> BothOpen(answers, nick, mapping, now))
      && Refines(s', answers + [Answer(nick, mapping, now, choice)], now)
      && (choice == Fallback ==> s' == PacerState(SyncInterval(s.nicks, mapping), DropOld(ONE_TIME_KEY_WINDOW, s.events, now)))
  {
    var (s', choice) := ChooseKey(s, nick, mapping, now);
    var a := Answer(nick, mapping, now, choice);
    DeedsAppend(answers, a);
    TimesAppend(answers, a);
    SyncTwice(s.nicks, nick, mapping, now);
    TracksAsk(ONE_TIME_KEY_INTERVAL, s.nicks, Deeds(answers), nick, mapping, now);
    TracksOther(s.nicks, Deeds(answers), mapping);
    HoldsLater(ONE_TIME_KEY_WINDOW, s.events, Times(answers), earlier, now);
    WindowGrants(ONE_TIME_KEY_GLOBAL_LIMIT, ONE_TIME_KEY_WINDOW, s.events, Times(answers), earlier, now);
  }

  function LastTime(asks: seq<Ask>): nat {
    if asks == [] then 0 else asks[|asks| - 1].now
  }

  /** The answers are to the questions. */
  predicate Answers(answers: seq<Answer>, asks: seq<Ask>) {
    && |answers| == |asks|
    && forall i :: 0 <= i < |asks| ==> Ask(answers[i].nick, answers[i].mapping, answers[i].now) == asks[i]
  }

  lemma {:induction false} RunAnswers(asks: seq<Ask>)
    ensures Answers(Run(asks).1, asks)
    decreases |asks|
  {
    if asks != [] {
      RunAnswers(asks[..|asks| - 1]);
    }
  }

  lemma {:induction false} RunRefines(asks: seq<Ask>)
    requires Forward(asks)
    ensures Refines(Run(asks).0, Run(asks).1, LastTime(asks))
    decreases |asks|
  {
    if asks != [] {
      var init, ask := asks[..|asks| - 1], asks[|asks| - 1];
      RunRefines(init);
      ChooseRefines(Run(init).0, Run(init).1, LastTime(init), ask.nick, ask.mapping, ask.now);
    }
  }

  /** Earlier answers do not change. */
  lemma {:induction false} AnswersStay(asks: seq<Ask>, k: nat)
    requires Forward(asks) && k <= |asks|
    ensures |Run(asks).1| == |asks| && Run(asks).1[..k] == Run(asks[..k]).1
    decreases |asks|
  {
    RunAnswers(asks);
    if k < |asks| {
      var init := asks[..|asks| - 1];
      AnswersStay(init, k);
      assert init[..k] == asks[..k];
      assert Run(asks).1[..k] == Run(init).1[..k];
    } else {
      assert asks[..k] == asks;
    }
  }

  /** Every answer is the one that the answers before it call for. */
  lemma AnswerIsRight(asks: seq<Ask>, k: nat)
    requires Forward(asks) && k < |asks|
    ensures |Run(asks).1| == |asks|
    ensures Run(asks).1[k].choice == OneTime <==> BothOpen(Run(asks).1[..k], asks[k].nick, asks[k].mapping, asks[k].now)
  {
    var part := asks[..k + 1];
    AnswersStay(asks, k + 1);
    AnswersStay(asks, k);
    RunRefines(asks[..k]);
    assert part[..|part| - 1] == asks[..k];
    assert Run(asks).1[k] == Run(asks).1[..k + 1][k];
    ChooseRefines(Run(asks[..k]).0, Run(asks[..k]).1, LastTime(asks[..k]), asks[k].nick, asks[k].mapping, asks[k].now);
  }

  /** Two one-time keys for one nickname are a minute apart, as long as the mapping stays. */
  lemma OneTimeKeysAreSpaced(asks: seq<Ask>, i: nat, j: nat)
    requires Forward(asks) && i < j < |asks| && |Run(asks).1| == |asks|
    requires Run(asks).1[i].choice == OneTime && Run(asks).1[j].choice == OneTime
    requires forall k :: i <= k <= j ==> asks[k].mapping == asks[i].mapping
    requires SameNick(asks[i].mapping, asks[i].nick, asks[j].nick)
    ensures asks[j].now - asks[i].now >= 60
  {
    var answers := Run(asks).1;
    RunAnswers(asks);
    AnswerIsRight(asks, j);
    assert Deeds(answers)[..j] == Deeds(answers[..j]);
    GrantsAreSpaced(ONE_TIME_KEY_INTERVAL, Deeds(answers), i, j);
  }

  /** In any hour there are at most thirty one-time keys, whatever the mappings. */
  lemma {:induction false} AtMostThirtyInAnHour(asks: seq<Ask>, from: nat)
    requires Forward(asks)
    ensures |InSpan(3_600, Times(Run(asks).1), from)| <= 30
    decreases |asks|
  {
    if asks != [] {
      var init, now := asks[..|asks| - 1], asks[|asks| - 1].now;
      var before := Run(init).1;
      var ask := asks[|asks| - 1];
      AtMostThirtyInAnHour(init, from);
      RunRefines(init);
      ChooseRefines(Run(init).0, before, LastTime(init), ask.nick, ask.mapping, now);
      TimesAppend(before, Run(asks).1[|before|]);
      if Run(asks).1[|before|].choice == OneTime {
        SpanGrows(ONE_TIME_KEY_GLOBAL_LIMIT, ONE_TIME_KEY_WINDOW, Times(before), now, from);
      }
    }
  }
}
