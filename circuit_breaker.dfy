/**
 * The sliding-window circuit breaker that guards the weather dependency.
 *
 * A breaker keeps a bounded FIFO window of call outcomes (0 = success,
 * 1 = failure) and one of three states.  Its five mutable fields change
 * only through `PushOutcome` (which appends to the window and then
 * re-evaluates the state) and `OnProbeResult` (which counts half-open
 * probes).  The transitions are first written as pure functions over a
 * `Runtime` value (the specification), and the class `Breaker` updates its
 * fields step by step and is proved to follow them.
 */
module CircuitBreaker {

  datatype Option<T> = None | Some(value: T)

  datatype BreakerState = Closed | Open | HalfOpen

  /** One recorded outcome: 0 for a success, 1 for a failure. */
  type Outcome = v: int | v == 0 || v == 1

  /** The constructor parameters, fixed for the breaker's lifetime. */
  datatype Config = Config(
    windowSize: int,
    failureThreshold: real,
    cooldownMs: int,
    halfOpenMaxProbes: int,
    halfOpenSuccessThreshold: int)

  /** The five mutable fields of a breaker. */
  datatype Runtime = Runtime(
    outcomes: seq<Outcome>,
    state: BreakerState,
    lastOpenedAt: int,
    halfOpenProbes: nat,
    successProbes: nat)

  /** The fields as the constructor leaves them. */
  const Initial := Runtime([], Closed, 0, 0, 0)

  /** The number of outcomes the window can hold: a non-positive size keeps it empty. */
  function Capacity(c: Config): (n: nat)
  {
    if c.windowSize > 0 then c.windowSize else 0
  }

  // ---------------------------------------------------------------------
  // The window and its failure rate
  // ---------------------------------------------------------------------

  /** The `reduce` that adds up the window. */
  function Sum(s: seq<Outcome>): (n: nat)
    ensures n <= |s|
  {
    if s == [] then 0 else s[0] + Sum(s[1..])
  }

  /** The sum of the window is the number of failures in it. */
  lemma {:induction false} SumIsFailureCount(s: seq<Outcome>)
    ensures Sum(s) == multiset(s)[1]
  {
    if s != [] {
      assert s == [s[0]] + s[1..];
      assert multiset(s) == multiset{s[0]} + multiset(s[1..]);
      SumIsFailureCount(s[1..]);
    }
  }

  /** Appending an outcome adds it to the sum. */
  lemma {:induction false} SumAppend(s: seq<Outcome>, v: Outcome)
    ensures Sum(s + [v]) == Sum(s) + v
  {
    if s != [] {
      assert (s + [v])[1..] == s[1..] + [v];
      SumAppend(s[1..], v);
    }
  }

  /** A part over a positive whole is a fraction in [0, 1]. */
  lemma RatioInUnitInterval(k: real, n: real)
    requires 0.0 <= k <= n && n > 0.0
    ensures 0.0 <= k / n <= 1.0 && (k / n) * n == k
  {
  }

  /**
   * The failure rate `sum / length`.  On an empty window the source divides
   * 0 by 0 and gets NaN, which is `None` here.
   */
  function FailureRate(s: seq<Outcome>): (rate: Option<real>)
    ensures rate.None? <==> s == []
    ensures rate.Some? ==> 0.0 <= rate.value <= 1.0
    ensures rate.Some? ==> rate.value * (|s| as real) == Sum(s) as real
  {
    if s == [] then None
    else
      var k, n := Sum(s) as real, |s| as real;
      RatioInUnitInterval(k, n);
      Some(k / n)
  }

  /** The last `n` elements of `t` (all of `t` when it is shorter). */
  function LastN(t: seq<Outcome>, n: nat): (w: seq<Outcome>)
  {
    if |t| <= n then t else t[|t| - n..]
  }

  /** `push(v)` followed by at most one `shift()` when the window overflows. */
  function Slide(c: Config, s: seq<Outcome>, v: Outcome): (w: seq<Outcome>)
  {
    var t := s + [v];
    if |t| > c.windowSize then t[1..] else t
  }

  /** A single shift is enough: the window is the last `Capacity` outcomes. */
  lemma SlideKeepsLastOutcomes(c: Config, s: seq<Outcome>, v: Outcome)
    requires |s| <= Capacity(c)
    ensures Slide(c, s, v) == LastN(s + [v], Capacity(c))
    ensures |Slide(c, s, v)| <= Capacity(c)
    ensures Capacity(c) > 0 ==> |Slide(c, s, v)| > 0 && Slide(c, s, v)[|Slide(c, s, v)| - 1] == v
  {
  }

  /** The closed-state test: a full window whose failure rate reaches the threshold. */
  predicate Trips(c: Config, s: seq<Outcome>)
  {
    |s| >= c.windowSize && FailureRate(s).Some? && FailureRate(s).value >= c.failureThreshold
  }

  // ---------------------------------------------------------------------
  // The transitions, as functions of the old fields
  // ---------------------------------------------------------------------

  /** `evaluateState`: what a push does to the state once the window is updated. */
  function Evaluate(c: Config, r: Runtime, now: int): (r': Runtime)
  {
    match r.state
    case Open =>
      if now - r.lastOpenedAt > c.cooldownMs then r.(state := HalfOpen, halfOpenProbes := 0) else r
    case HalfOpen => r
    case Closed =>
      if Trips(c, r.outcomes) then r.(state := Open, lastOpenedAt := now) else r
  }

  /** `pushOutcome(v)` at clock reading `now`. */
  function Push(c: Config, r: Runtime, v: Outcome, now: int): (r': Runtime)
  {
    Evaluate(c, r.(outcomes := Slide(c, r.outcomes, v)), now)
  }

  /** `onProbeResult(success)` at clock reading `now`. */
  function ProbeResult(c: Config, r: Runtime, success: bool, now: int): (r': Runtime)
  {
    if r.state != HalfOpen then r
    else
      var probes := r.halfOpenProbes + 1;
      if success then
        var successes := r.successProbes + 1;
        if successes > c.halfOpenSuccessThreshold then
          r.(state := Closed, outcomes := [], halfOpenProbes := probes, successProbes := successes)
        else
          r.(halfOpenProbes := probes, successProbes := successes)
      else if probes >= c.halfOpenMaxProbes then
        r.(state := Open, lastOpenedAt := now, halfOpenProbes := probes)
      else
        r.(halfOpenProbes := probes)
  }

  /** A call into one of the two entry points. */
  datatype Event = Pushed(v: Outcome, now: int) | Probed(success: bool, now: int)

  function Step(c: Config, r: Runtime, e: Event): (r': Runtime)
  {
    match e
    case Pushed(v, now) => Push(c, r, v, now)
    case Probed(success, now) => ProbeResult(c, r, success, now)
  }

  /** The fields after a sequence of calls, oldest first. */
  function Run(c: Config, r: Runtime, es: seq<Event>): (r': Runtime)
    decreases |es|
  {
    if es == [] then r else Run(c, Step(c, r, es[0]), es[1..])
  }

  // ---------------------------------------------------------------------
  // Properties of one push
  // ---------------------------------------------------------------------

  /** The window after a push is the last `windowSize` outcomes, the new one last. */
  lemma PushSlidesWindow(c: Config, r: Runtime, v: Outcome, now: int)
    requires |r.outcomes| <= Capacity(c)
    ensures Push(c, r, v, now).outcomes == LastN(r.outcomes + [v], Capacity(c))
    ensures |Push(c, r, v, now).outcomes| <= Capacity(c)
  {
    SlideKeepsLastOutcomes(c, r.outcomes, v);
  }

  /**
   * From CLOSED a push opens the breaker, stamping `now`, exactly when the
   * updated window is full and its failure rate reaches the threshold;
   * otherwise it stays CLOSED.  The probe counters are untouched.
   */
  lemma PushFromClosed(c: Config, r: Runtime, v: Outcome, now: int)
    requires r.state == Closed
    ensures var w, r' := Slide(c, r.outcomes, v), Push(c, r, v, now);
      && r'.outcomes == w
      && (r'.state == Open <==>
            |w| >= c.windowSize && |w| > 0 && (Sum(w) as real) / (|w| as real) >= c.failureThreshold)
      && (r'.state == Open || r'.state == Closed)
      && r'.lastOpenedAt == (if r'.state == Open then now else r.lastOpenedAt)
      && r'.halfOpenProbes == r.halfOpenProbes && r'.successProbes == r.successProbes
  {
  }

  /** While the window is still filling, a CLOSED breaker only appends. */
  lemma PushWhileFilling(c: Config, r: Runtime, v: Outcome, now: int)
    requires r.state == Closed && |r.outcomes| + 1 < c.windowSize
    ensures Push(c, r, v, now) == r.(outcomes := r.outcomes + [v])
  {
  }

  /**
   * From OPEN a push moves to HALF-OPEN, resetting only `halfOpenProbes`,
   * exactly when strictly more than `cooldownMs` has elapsed since opening;
   * it never closes the breaker, and `successProbes` is kept.
   */
  lemma PushFromOpen(c: Config, r: Runtime, v: Outcome, now: int)
    requires r.state == Open
    ensures var r' := Push(c, r, v, now);
      && r'.outcomes == Slide(c, r.outcomes, v)
      && (r'.state == HalfOpen <==> now - r.lastOpenedAt > c.cooldownMs)
      && (r'.state == HalfOpen || r'.state == Open)
      && r'.halfOpenProbes == (if r'.state == HalfOpen then 0 else r.halfOpenProbes)
      && r'.lastOpenedAt == r.lastOpenedAt && r'.successProbes == r.successProbes
  {
  }

  /**
   * In OPEN the failure rate is not consulted: whatever the window holds and
   * whichever outcome is pushed, the state and counters come out the same.
   */
  lemma OpenPushIgnoresWindow(c: Config, r1: Runtime, r2: Runtime, v1: Outcome, v2: Outcome, now: int)
    requires r1.state == Open
    requires r2 == r1.(outcomes := r2.outcomes)
    ensures Push(c, r1, v1, now).(outcomes := []) == Push(c, r2, v2, now).(outcomes := [])
  {
  }

  /** From HALF-OPEN a push changes nothing but the window. */
  lemma PushFromHalfOpen(c: Config, r: Runtime, v: Outcome, now: int)
    requires r.state == HalfOpen
    ensures Push(c, r, v, now) == r.(outcomes := Slide(c, r.outcomes, v))
  {
  }

  /** The breaker never goes OPEN to HALF-OPEN before the cooldown has strictly elapsed. */
  lemma NoHalfOpenBeforeCooldown(c: Config, r: Runtime, v: Outcome, now: int)
    requires r.state == Open && now - r.lastOpenedAt <= c.cooldownMs
    ensures Push(c, r, v, now).state == Open
    ensures ProbeResult(c, r, true, now) == r && ProbeResult(c, r, false, now) == r
  {
  }

  // ---------------------------------------------------------------------
  // Properties of one probe report
  // ---------------------------------------------------------------------

  /** Outside HALF-OPEN a probe report changes nothing. */
  lemma ProbeOutsideHalfOpen(c: Config, r: Runtime, success: bool, now: int)
    requires r.state != HalfOpen
    ensures ProbeResult(c, r, success, now) == r
  {
  }

  /**
   * A successful probe counts in both counters and closes the breaker, with
   * an empty window, exactly when the success count strictly exceeds the
   * threshold; otherwise the breaker stays HALF-OPEN with its window.
   */
  lemma ProbeSuccess(c: Config, r: Runtime, now: int)
    requires r.state == HalfOpen
    ensures var r' := ProbeResult(c, r, true, now);
      && r'.halfOpenProbes == r.halfOpenProbes + 1
      && r'.successProbes == r.successProbes + 1
      && (r'.state == Closed <==> r.successProbes + 1 > c.halfOpenSuccessThreshold)
      && (r'.state == Closed || r'.state == HalfOpen)
      && r'.outcomes == (if r'.state == Closed then [] else r.outcomes)
      && r'.lastOpenedAt == r.lastOpenedAt
  {
  }

  /**
   * A failed probe counts in `halfOpenProbes` only and reopens the breaker,
   * stamping `now`, exactly when that count reaches `halfOpenMaxProbes`,
   * however many successes came before; the window is untouched.
   */
  lemma ProbeFailure(c: Config, r: Runtime, now: int)
    requires r.state == HalfOpen
    ensures var r' := ProbeResult(c, r, false, now);
      && r'.halfOpenProbes == r.halfOpenProbes + 1
      && r'.successProbes == r.successProbes
      && (r'.state == Open <==> r.halfOpenProbes + 1 >= c.halfOpenMaxProbes)
      && (r'.state == Open || r'.state == HalfOpen)
      && r'.lastOpenedAt == (if r'.state == Open then now else r.lastOpenedAt)
      && r'.outcomes == r.outcomes
  {
  }

  // ---------------------------------------------------------------------
  // Invariants over any sequence of calls
  // ---------------------------------------------------------------------

  /**
   * The window never exceeds its capacity, and a CLOSED breaker never holds
   * a full window at or above the threshold: it opens on the very push that
   * gets it there.
   */
  predicate Inv(c: Config, r: Runtime)
  {
    && |r.outcomes| <= Capacity(c)
    && (r.state == Closed ==> !Trips(c, r.outcomes))
  }

  lemma InitialInv(c: Config)
    ensures Inv(c, Initial)
  {
  }

  lemma StepKeepsInv(c: Config, r: Runtime, e: Event)
    requires Inv(c, r)
    ensures Inv(c, Step(c, r, e))
  {
    if e.Pushed? {
      SlideKeepsLastOutcomes(c, r.outcomes, e.v);
    }
  }

  lemma {:induction false} RunKeepsInv(c: Config, r: Runtime, es: seq<Event>)
    requires Inv(c, r)
    ensures Inv(c, Run(c, r, es))
    decreases |es|
  {
    if es != [] {
      StepKeepsInv(c, r, es[0]);
      RunKeepsInv(c, Step(c, r, es[0]), es[1..]);
    }
  }

  /** The transitions the code can take in one call: no state is skipped. */
  predicate Successor(a: BreakerState, b: BreakerState)
  {
    || a == b
    || (a == Closed && b == Open)
    || (a == Open && b == HalfOpen)
    || (a == HalfOpen && (b == Closed || b == Open))
  }

  lemma StepFollowsCycle(c: Config, r: Runtime, e: Event)
    ensures Successor(r.state, Step(c, r, e).state)
  {
  }

  /** `successProbes` is never reset: no call lowers it. */
  lemma {:induction false} RunNeverLowersSuccessProbes(c: Config, r: Runtime, es: seq<Event>)
    ensures Run(c, r, es).successProbes >= r.successProbes
    decreases |es|
  {
    if es != [] {
      RunNeverLowersSuccessProbes(c, Step(c, r, es[0]), es[1..]);
    }
  }

  /**
   * Because `successProbes` survives a close, once one HALF-OPEN episode has
   * closed the breaker, the first successful probe of any later HALF-OPEN
   * episode closes it again.
   */
  lemma LaterEpisodeClosesOnFirstSuccess(c: Config, r: Runtime, es: seq<Event>, now: int)
    requires r.successProbes > c.halfOpenSuccessThreshold
    requires Run(c, r, es).state == HalfOpen
    ensures ProbeResult(c, Run(c, r, es), true, now).state == Closed
  {
    RunNeverLowersSuccessProbes(c, r, es);
  }

  // ---------------------------------------------------------------------
  // The breaker object
  // ---------------------------------------------------------------------

  /** What `status()` reports. */
  datatype StatusSnapshot = StatusSnapshot(
    state: BreakerState,
    windowSize: int,
    failureThreshold: real,
    cooldownMs: int,
    halfOpenProbes: nat,
    outcomeCount: seq<Outcome>,
    failureRate: Option<real>)

  class Breaker {
    const windowSize: int
    const failureThreshold: real
    const cooldownMs: int
    const halfOpenMaxProbes: int
    const halfOpenSuccessThreshold: int

    var outcomes: seq<Outcome>
    var state: BreakerState
    var lastOpenedAt: int
    var halfOpenProbes: nat
    var successProbes: nat

    function Cfg(): Config
    {
      Config(windowSize, failureThreshold, cooldownMs, halfOpenMaxProbes, halfOpenSuccessThreshold)
    }

    ghost function Snapshot(): Runtime
      reads this
    {
      Runtime(outcomes, state, lastOpenedAt, halfOpenProbes, successProbes)
    }

    ghost predicate Valid()
      reads this
    {
      Inv(Cfg(), Snapshot())
    }

    constructor (windowSize: int := 20, failureThreshold: real := 0.5, cooldownMs: int := 30000,
                 halfOpenMaxProbes: int := 5, halfOpenSuccessThreshold: int := 5)
      ensures Cfg() == Config(windowSize, failureThreshold, cooldownMs, halfOpenMaxProbes, halfOpenSuccessThreshold)
      ensures Snapshot() == Initial
      ensures Valid()
    {
      this.windowSize := windowSize;
      this.failureThreshold := failureThreshold;
      this.cooldownMs := cooldownMs;
      this.halfOpenMaxProbes := halfOpenMaxProbes;
      this.halfOpenSuccessThreshold := halfOpenSuccessThreshold;
      outcomes := [];
      state := Closed;
      lastOpenedAt := 0;
      halfOpenProbes := 0;
      successProbes := 0;
    }

    /** Record one outcome, then re-evaluate the state. */
    method PushOutcome(v: Outcome, now: int)
      requires Valid()
      modifies this
      ensures Valid()
      ensures Snapshot() == Push(Cfg(), old(Snapshot()), v, now)
    {
      StepKeepsInv(Cfg(), Snapshot(), Pushed(v, now));
      outcomes := outcomes + [v];
      if |outcomes| > windowSize {
        outcomes := outcomes[1..];
      }
      EvaluateState(now);
    }

    method EvaluateState(now: int)
      modifies this
      ensures Snapshot() == Evaluate(Cfg(), old(Snapshot()), now)
    {
      if state == Open {
        if now - lastOpenedAt > cooldownMs {
          state := HalfOpen;
          halfOpenProbes := 0;
        }
        return;
      }
      if state == HalfOpen {
        return;
      }
      if |outcomes| >= windowSize {
        var fRate := FailureRate(outcomes);
        if fRate.Some? && fRate.value >= failureThreshold {
          state := Open;
          lastOpenedAt := now;
        }
      }
    }

    method AllowRequest() returns (allowed: bool)
      ensures allowed <==> state != Open
    {
      allowed := state != Open;
    }

    /** Report the result of a live call made while HALF-OPEN. */
    method OnProbeResult(success: bool, now: int)
      requires Valid()
      modifies this
      ensures Valid()
      ensures Snapshot() == ProbeResult(Cfg(), old(Snapshot()), success, now)
    {
      StepKeepsInv(Cfg(), Snapshot(), Probed(success, now));
      if state != HalfOpen {
        return;
      }
      halfOpenProbes := halfOpenProbes + 1;
      if success {
        successProbes := successProbes + 1;
        if successProbes > halfOpenSuccessThreshold {
          state := Closed;
          outcomes := [];
          return;
        }
      } else {
        if halfOpenProbes >= halfOpenMaxProbes {
          state := Open;
          lastOpenedAt := now;
        }
      }
    }

    method Status() returns (st: StatusSnapshot)
      ensures st.state == state && st.outcomeCount == outcomes && st.halfOpenProbes == halfOpenProbes
      ensures st.windowSize == windowSize && st.failureThreshold == failureThreshold
      ensures st.cooldownMs == cooldownMs
      ensures st.failureRate.None? <==> outcomes == []
      ensures st.failureRate.Some? ==> st.failureRate.value * (|outcomes| as real) == Sum(outcomes) as real
    {
      st := StatusSnapshot(state, windowSize, failureThreshold, cooldownMs, halfOpenProbes,
                           outcomes, FailureRate(outcomes));
    }
  }
}
