/** The waits between attempts to connect. Times are seconds, and rounding is left out. */
module Backoffs {
  import opened Base

  const BASE_DELAY: real := 1.0
  const MAX_DELAY: real := 60.0
  const STABLE_AFTER: real := 30.0
  const MAX_RETRY_AFTER: real := 300.0
  const MAX_DOUBLINGS: nat := 6
  const U32_MAX: nat := 0xFFFF_FFFF

  /** A floating point number: finite or not. */
  datatype Float = Finite(value: real) | NotFinite

  function Min(a: real, b: real): real {
    if a <= b then a else b
  }

  function Max(a: real, b: real): real {
    if a >= b then a else b
  }

  function Pow2(n: nat): nat {
    if n == 0 then 1 else 2 * Pow2(n - 1)
  }

  function NominalDelay(failures: nat): real {
    Min(BASE_DELAY * (Pow2(if failures <= MAX_DOUBLINGS then failures else MAX_DOUBLINGS) as real), MAX_DELAY)
  }

  function SaneUnit(unit: Float): real {
    match unit
    case Finite(u) => Min(Max(u, 0.0), 1.0)
    case NotFinite => 0.5
  }

  function Jittered(nominal: real, unit: Float): real {
    nominal * (1.0 - 0.25 + 2.0 * 0.25 * SaneUnit(unit))
  }

  function SpreadUpwards(wait: real, unit: Float): real {
    wait * (1.0 + 0.25 * SaneUnit(unit))
  }

  function Delay(failures: nat, retryAfter: Option<real>, unit: Float): real {
    var backoff := Jittered(NominalDelay(failures), unit);
    match retryAfter
    case Some(hint) => Max(backoff, Min(SpreadUpwards(Min(hint, MAX_RETRY_AFTER), unit), MAX_RETRY_AFTER))
    case None => backoff
  }

  function NextFailures(failures: nat, upFor: real): nat {
    var kept := if upFor >= STABLE_AFTER then 0 else failures;
    if kept < U32_MAX then kept + 1 else U32_MAX
  }

  class Backoff {
    var failures: nat

    constructor ()
      ensures failures == 0
    {
      failures := 0;
    }

    method NextDelay(upFor: real, retryAfter: Option<real>, unit: Float) returns (delay: real)
      modifies this
      ensures failures == NextFailures(old(failures), upFor)
      ensures delay == Delay(if upFor >= STABLE_AFTER then 0 else old(failures), retryAfter, unit)
    {
      if upFor >= STABLE_AFTER {
        failures := 0;
      }
      var backoff := Jittered(NominalDelay(failures), unit);
      failures := if failures < U32_MAX then failures + 1 else U32_MAX;
      match retryAfter {
        case Some(hint) =>
          var spread := SpreadUpwards(Min(hint, MAX_RETRY_AFTER), unit);
          delay := Max(backoff, Min(spread, MAX_RETRY_AFTER));
        case None => delay := backoff;
      }
    }
  }

  /** One second, doubled by every failure up to a minute. */
  lemma NominalDoubles(failures: nat)
    ensures NominalDelay(0) == BASE_DELAY
    ensures NominalDelay(failures + 1) == Min(2.0 * NominalDelay(failures), MAX_DELAY)
    ensures BASE_DELAY <= NominalDelay(failures) <= MAX_DELAY
  {
    assert Pow2(1) == 2 && Pow2(2) == 4 && Pow2(3) == 8;
    assert Pow2(4) == 16 && Pow2(5) == 32 && Pow2(6) == 64;
  }

  lemma Scaled(x: real, low: real, f: real, high: real)
    requires x >= 0.0 && low <= f <= high
    ensures low * x <= x * f <= high * x
  {
  }

  lemma JitterBounds(nominal: real, unit: Float)
    requires nominal >= 0.0
    ensures 0.75 * nominal <= Jittered(nominal, unit) <= 1.25 * nominal
  {
    var f := 1.0 - 0.25 + 2.0 * 0.25 * SaneUnit(unit);
    Scaled(nominal, 0.75, f, 1.25);
    assert Jittered(nominal, unit) == nominal * f;
  }

  lemma SpreadBounds(wait: real, unit: Float)
    requires wait >= 0.0
    ensures wait <= SpreadUpwards(wait, unit) <= 1.25 * wait
  {
    var u := SaneUnit(unit);
    Scaled(wait, 0.0, u, 1.0);
    assert SpreadUpwards(wait, unit) == wait + 0.25 * (wait * u);
  }

  /** The longer of a wait and a hint that is cut at five minutes. */
  lemma LongerWait(backoff: real, nominal: real, hint: real, spread: real)
    requires 0.75 * nominal <= backoff <= 1.25 * nominal && nominal <= MAX_DELAY && hint >= 0.0
    requires Min(hint, MAX_RETRY_AFTER) <= spread <= 1.25 * Min(hint, MAX_RETRY_AFTER)
    ensures var d := Max(backoff, Min(spread, MAX_RETRY_AFTER));
      0.75 * nominal <= d <= MAX_RETRY_AFTER && Min(hint, MAX_RETRY_AFTER) <= d <= Max(1.25 * nominal, 1.25 * hint)
  {
  }

  /**
   * A wait is between three and five quarters of the nominal one, whatever the random number is. A hint is
   * a floor up to five minutes, and no wait is longer than five minutes.
   */
  lemma DelayBounds(failures: nat, retryAfter: Option<real>, unit: Float)
    requires retryAfter.Some? ==> retryAfter.value >= 0.0
    ensures var d, nominal := Delay(failures, retryAfter, unit), NominalDelay(failures);
      0.75 * nominal <= d <= MAX_RETRY_AFTER &&
      match retryAfter
      case None => d <= 1.25 * nominal <= 75.0
      case Some(hint) => Min(hint, MAX_RETRY_AFTER) <= d <= Max(1.25 * nominal, 1.25 * hint)
  {
    NominalDoubles(failures);
    JitterBounds(NominalDelay(failures), unit);
    match retryAfter
    case None =>
    case Some(hint) =>
      var capped := Min(hint, MAX_RETRY_AFTER);
      SpreadBounds(capped, unit);
      LongerWait(Jittered(NominalDelay(failures), unit), NominalDelay(failures), hint, SpreadUpwards(capped, unit));
  }

  /** One end of a connection. */
  datatype Drop = Drop(upFor: real, retryAfter: Option<real>, unit: Float)

  function FailuresAfter(failures: nat, drops: seq<Drop>): nat
    decreases |drops|
  {
    if drops == [] then failures else FailuresAfter(NextFailures(failures, drops[0].upFor), drops[1..])
  }

  /** How many of the drops came since the last stable connection, its own drop included. */
  function SinceStable(drops: seq<Drop>): nat {
    if drops == [] then 0
    else if drops[|drops| - 1].upFor >= STABLE_AFTER then 1
    else SinceStable(drops[..|drops| - 1]) + 1
  }

  lemma {:induction false} OneMoreDrop(failures: nat, drops: seq<Drop>, last: Drop)
    ensures FailuresAfter(failures, drops + [last]) == NextFailures(FailuresAfter(failures, drops), last.upFor)
    decreases |drops|
  {
    if drops == [] {
      assert drops + [last] == [last];
      assert FailuresAfter(failures, [last]) == FailuresAfter(NextFailures(failures, last.upFor), [last][1..]);
    } else {
      assert (drops + [last])[1..] == drops[1..] + [last];
      OneMoreDrop(NextFailures(failures, drops[0].upFor), drops[1..], last);
    }
  }

  /** In every run the counter is the number of drops since the last stable connection, up to 32 bits. */
  lemma {:induction false} FailuresAreCounted(drops: seq<Drop>)
    ensures FailuresAfter(0, drops) == if SinceStable(drops) <= U32_MAX then SinceStable(drops) else U32_MAX
    decreases |drops|
  {
    if drops != [] {
      var init, last := drops[..|drops| - 1], drops[|drops| - 1];
      assert drops == init + [last];
      FailuresAreCounted(init);
      OneMoreDrop(0, init, last);
    }
  }

  /** The failures that the wait after the last drop of a run is computed from. */
  function FailuresForWait(drops: seq<Drop>): nat
    requires drops != []
  {
    var last := drops[|drops| - 1];
    if last.upFor >= STABLE_AFTER then 0 else FailuresAfter(0, drops[..|drops| - 1])
  }

  lemma NominalStays(a: nat, b: nat)
    requires a == b || (MAX_DOUBLINGS <= a && MAX_DOUBLINGS <= b)
    ensures NominalDelay(a) == NominalDelay(b)
  {
  }

  /**
   * In every run the nominal wait after a drop is set by the drops since the last stable connection alone:
   * the first of them waits a second, each further one twice as long, up to a minute.
   */
  lemma WaitCountsSinceStable(drops: seq<Drop>)
    requires drops != []
    ensures SinceStable(drops) >= 1
    ensures NominalDelay(FailuresForWait(drops)) == NominalDelay(SinceStable(drops) - 1)
  {
    FailuresAreCounted(drops[..|drops| - 1]);
    NominalStays(FailuresForWait(drops), SinceStable(drops) - 1);
  }

  // ---- the exact waits ----

  /** The waits before the spread: 1, 2, 4, 8, 16 and 32 seconds, and a minute from then on. */
  lemma NominalWaits(failures: nat)
    ensures NominalDelay(0) == 1.0 && NominalDelay(1) == 2.0 && NominalDelay(2) == 4.0
    ensures NominalDelay(3) == 8.0 && NominalDelay(4) == 16.0 && NominalDelay(5) == 32.0
    ensures failures >= 6 ==> NominalDelay(failures) == 60.0
  {
    assert Pow2(1) == 2 && Pow2(2) == 4 && Pow2(3) == 8;
    assert Pow2(4) == 16 && Pow2(5) == 32 && Pow2(6) == 64;
  }

  lemma Distributes(n: real, a: real, b: real, u: real)
    ensures n * (a + b * u) == a * n + b * (n * u)
  {
  }

  /** A random number between 0 and 1 moves the wait evenly from three to five quarters of the nominal one. */
  lemma JitterMeans(nominal: real, u: real)
    ensures Jittered(nominal, Finite(0.0)) == 0.75 * nominal
    ensures Jittered(nominal, Finite(0.5)) == nominal
    ensures Jittered(nominal, Finite(1.0)) == 1.25 * nominal
    ensures 0.0 <= u <= 1.0 ==> Jittered(nominal, Finite(u)) == 0.75 * nominal + 0.5 * (nominal * u)
    ensures u <= 0.0 ==> Jittered(nominal, Finite(u)) == 0.75 * nominal
    ensures u >= 1.0 ==> Jittered(nominal, Finite(u)) == 1.25 * nominal
    ensures Jittered(nominal, NotFinite) == nominal
  {
    Distributes(nominal, 1.0 - 0.25, 2.0 * 0.25, SaneUnit(Finite(u)));
  }

  lemma Positive(a: real, b: real)
    requires a > 0.0 && b > 0.0
    ensures a * b > 0.0
  {
  }

  lemma Larger(n: real, u: real, v: real)
    requires n > 0.0 && u < v
    ensures n * u < n * v
  {
    Positive(n, v - u);
    Distributes(n, u, 1.0, v - u);
    assert u + 1.0 * (v - u) == v;
  }

  lemma JitterFactors(nominal: real, u: real, v: real) returns (a: real, b: real)
    requires 0.0 <= u < v <= 1.0
    ensures a < b && Jittered(nominal, Finite(u)) == nominal * a && Jittered(nominal, Finite(v)) == nominal * b
  {
    a, b := 1.0 - 0.25 + 2.0 * 0.25 * SaneUnit(Finite(u)), 1.0 - 0.25 + 2.0 * 0.25 * SaneUnit(Finite(v));
  }

  /** A larger random number waits longer. */
  lemma JitterGrows(nominal: real, u: real, v: real)
    requires nominal > 0.0 && 0.0 <= u < v <= 1.0
    ensures Jittered(nominal, Finite(u)) < Jittered(nominal, Finite(v))
  {
    var a, b := JitterFactors(nominal, u, v);
    Larger(nominal, a, b);
  }

  /** A hint is spread upwards only, by up to a quarter. */
  lemma SpreadMeans(wait: real, u: real)
    ensures SpreadUpwards(wait, Finite(0.0)) == wait && SpreadUpwards(wait, Finite(1.0)) == 1.25 * wait
    ensures 0.0 <= u <= 1.0 ==> SpreadUpwards(wait, Finite(u)) == wait + 0.25 * (wait * u)
    ensures SpreadUpwards(wait, NotFinite) == 1.125 * wait
  {
    Distributes(wait, 1.0, 0.25, u);
  }

  /**
   * The exact wait: without a hint the spread one; with a hint of five minutes or more five minutes; and with a
   * shorter hint the longer of the spread wait and the spread hint, cut at five minutes.
   */
  lemma DelayMeans(failures: nat, hint: real, u: real)
    requires 0.0 <= u <= 1.0 && hint >= 0.0
    ensures var unit := Finite(u);
      var own := Jittered(NominalDelay(failures), unit);
      var asked := hint + 0.25 * (hint * u);
      && Delay(failures, None, unit) == own
      && (hint >= 300.0 || asked >= 300.0 ==> Delay(failures, Some(hint), unit) == 300.0)
      && (own <= asked < 300.0 ==> Delay(failures, Some(hint), unit) == asked)
      && (hint < 300.0 && asked < own ==> Delay(failures, Some(hint), unit) == own)
  {
    NominalDoubles(failures);
    JitterBounds(NominalDelay(failures), Finite(u));
    SpreadMeans(hint, u);
    SpreadMeans(300.0, u);
  }

  /** A connection that lasted 30 seconds starts the count again, and its own end is counted; 32 bits are the end. */
  lemma FailuresMean(failures: nat, upFor: real)
    requires failures <= 4_294_967_295
    ensures upFor >= 30.0 ==> NextFailures(failures, upFor) == 1
    ensures upFor < 30.0 && failures < 4_294_967_295 ==> NextFailures(failures, upFor) == failures + 1
    ensures upFor < 30.0 && failures == 4_294_967_295 ==> NextFailures(failures, upFor) == failures
  {
  }
}
