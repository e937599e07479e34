// modelpolicy/resilience.go: the circuit breaker.  Callers are concurrent, so a history interleaves
// admission requests and recorded outcomes in any order.
module Breaker {

  datatype Config = Config(failureThreshold: int, recoveryTimeout: int, halfOpenMax: int)

  datatype State = Closed | Open | HalfOpen

  datatype Circuit = Circuit(state: State, failures: nat, lastFailure: int, halfOpenActive: int)

  const NEW_CIRCUIT := Circuit(Closed, 0, 0, 0)

  datatype Op = Allow(now: int) | Success | Failure(now: int)

  // ---- The machine ----

  predicate Admits(cfg: Config, c: Circuit, now: int) {
    match c.state
    case Closed => true
    case Open => now - c.lastFailure >= cfg.recoveryTimeout
    case HalfOpen => c.halfOpenActive < cfg.halfOpenMax
  }

  function AfterAllow(cfg: Config, c: Circuit, now: int): Circuit {
    match c.state
    case Closed => c
    case Open =>
      if now - c.lastFailure >= cfg.recoveryTimeout then c.(state := HalfOpen, halfOpenActive := 1) else c
    case HalfOpen =>
      if c.halfOpenActive < cfg.halfOpenMax then c.(halfOpenActive := c.halfOpenActive + 1) else c
  }

  function AfterSuccess(c: Circuit): Circuit {
    c.(failures := 0, halfOpenActive := 0, state := Closed)
  }

  function AfterFailure(cfg: Config, c: Circuit, now: int): Circuit {
    var d := c.(failures := c.failures + 1, lastFailure := now);
    if d.state == HalfOpen then d.(state := Open, halfOpenActive := 0)
    else if d.failures >= cfg.failureThreshold then d.(state := Open)
    else d
  }

  function Step(cfg: Config, c: Circuit, op: Op): Circuit {
    match op
    case Allow(now) => AfterAllow(cfg, c, now)
    case Success => AfterSuccess(c)
    case Failure(now) => AfterFailure(cfg, c, now)
  }

  datatype History = Start | Later(past: History, op: Op)

  function Run(cfg: Config, h: History): Circuit {
    match h
    case Start => NEW_CIRCUIT
    case Later(past, op) => Step(cfg, Run(cfg, past), op)
  }

  // ---- The rule the breaker implements, said over recorded outcomes only ----

  /** Failures recorded since the last recorded success. */
  function FailuresSince(h: History): nat {
    match h
    case Start => 0
    case Later(past, Allow(_)) => FailuresSince(past)
    case Later(past, Success) => 0
    case Later(past, Failure(_)) => FailuresSince(past) + 1
  }

  /** The time of the latest recorded failure. */
  function LastFailure(h: History): int {
    match h
    case Start => 0
    case Later(past, Failure(now)) => now
    case Later(past, _) => LastFailure(past)
  }

  /** Whether a call asking at time now should get through. */
  predicate Permitted(cfg: Config, h: History, now: int)
    decreases h, 1
  {
    || FailuresSince(h) < cfg.failureThreshold
    || (Probes(cfg, h) == 0 && now - LastFailure(h) >= cfg.recoveryTimeout)
    || 0 < Probes(cfg, h) < cfg.halfOpenMax
  }

  /** Calls let through since the latest recorded outcome. */
  function Probes(cfg: Config, h: History): nat
    decreases h, 0
  {
    match h
    case Start => 0
    case Later(past, Allow(now)) => Probes(cfg, past) + (if Permitted(cfg, past, now) then 1 else 0)
    case Later(past, _) => 0
  }

  function RuleState(cfg: Config, h: History): State {
    if FailuresSince(h) < cfg.failureThreshold then Closed
    else if Probes(cfg, h) == 0 then Open
    else HalfOpen
  }

  /** The machine holds exactly what the rule reads off the history. */
  ghost predicate Tracks(cfg: Config, c: Circuit, h: History) {
    && c.state == RuleState(cfg, h)
    && c.failures == FailuresSince(h)
    && c.lastFailure == LastFailure(h)
    && c.halfOpenActive == (if c.state == HalfOpen then Probes(cfg, h) else 0)
  }

  lemma {:induction false} MachineTracks(cfg: Config, h: History)
    requires cfg.failureThreshold >= 1
    ensures Tracks(cfg, Run(cfg, h), h)
  {
    if h.Later? {
      MachineTracks(cfg, h.past);
      StepTracks(cfg, Run(cfg, h.past), h.past, h.op);
    }
  }

  lemma StepTracks(cfg: Config, c: Circuit, h: History, op: Op)
    requires cfg.failureThreshold >= 1 && Tracks(cfg, c, h)
    ensures Tracks(cfg, Step(cfg, c, op), Later(h, op))
  {
    match op
    case Allow(now) =>
      assert Permitted(cfg, h, now) <==> Admits(cfg, c, now);
    case Success =>
      assert Probes(cfg, Later(h, op)) == 0;
    case Failure(now) =>
      assert Probes(cfg, Later(h, op)) == 0;
  }

  /** The breaker admits exactly what the rule permits, and is Closed exactly while the failures
      since the last success are below the threshold. */
  lemma BreakerFollowsRule(cfg: Config, h: History, now: int)
    requires cfg.failureThreshold >= 1
    ensures Admits(cfg, Run(cfg, h), now) <==> Permitted(cfg, h, now)
    ensures Run(cfg, h).state == Closed <==> FailuresSince(h) < cfg.failureThreshold
  {
    MachineTracks(cfg, h);
  }

  /** With a threshold of zero or less one failure is still needed to trip, and one success resets:
      such a breaker behaves exactly like one with threshold 1. */
  lemma {:induction false} LowThreshold(cfg: Config, h: History)
    requires cfg.failureThreshold < 1
    ensures Run(cfg, h) == Run(cfg.(failureThreshold := 1), h)
  {
    if h.Later? { LowThreshold(cfg, h.past); }
  }

  /** While open, nothing gets through before the recovery time has passed since the latest failure. */
  lemma OpenHolds(cfg: Config, h: History, now: int)
    requires cfg.failureThreshold >= 1 && Run(cfg, h).state == Open
    ensures Admits(cfg, Run(cfg, h), now) <==> now - LastFailure(h) >= cfg.recoveryTimeout
  {
    MachineTracks(cfg, h);
  }

  function Max(a: int, b: int): int {
    if a >= b then a else b
  }

  /** A half-open episode, from the trip or failed probe before it to the next recorded outcome,
      lets at most max(1, HalfOpenMax) calls through. */
  lemma {:induction false} EpisodeBound(cfg: Config, h: History)
    requires FailuresSince(h) >= cfg.failureThreshold && cfg.failureThreshold >= 1
    ensures Probes(cfg, h) <= Max(1, cfg.halfOpenMax)
  {
    if h.Later? && h.op.Allow? { EpisodeBound(cfg, h.past); }
  }

  predicate Saturated(cfg: Config, c: Circuit) {
    c.state == HalfOpen && c.halfOpenActive >= cfg.halfOpenMax
  }

  predicate OnlyAsks(base: History, h: History) {
    h == base || (h.Later? && h.op.Allow? && OnlyAsks(base, h.past))
  }

  /** A saturated half-open breaker admits nobody at any time until some outcome is recorded: a probe
      that ends without recording one keeps its slot. */
  lemma {:induction false} SaturatedStays(cfg: Config, base: History, h: History, now: int)
    requires Saturated(cfg, Run(cfg, base)) && OnlyAsks(base, h)
    ensures Run(cfg, h) == Run(cfg, base) && !Admits(cfg, Run(cfg, h), now)
  {
    if h != base { SaturatedStays(cfg, base, h.past, now); }
  }

  /** Any recorded outcome frees it: a success admits every caller again, a failure admits one after
      the recovery time. */
  lemma OutcomeReleases(cfg: Config, h: History, failed: int, now: int)
    requires Run(cfg, h).state == HalfOpen
    ensures Admits(cfg, Run(cfg, Later(h, Success)), now)
    ensures Admits(cfg, Run(cfg, Later(h, Failure(failed))), now) <==> now - failed >= cfg.recoveryTimeout
  {
    assert Run(cfg, Later(h, Failure(failed))) == AfterFailure(cfg, Run(cfg, h), failed);
  }

  /** Nobody gets in any more, at any time, unless an outcome is recorded. */
  ghost predicate ShutOut(cfg: Config, h: History) {
    forall later, now :: OnlyAsks(h, later) ==> !Admits(cfg, Run(cfg, later), now)
  }

  /** A half-open breaker shuts everybody out exactly when its probes since the latest recorded outcome
      have used up the slots. */
  lemma ShutOutExactly(cfg: Config, h: History)
    requires cfg.failureThreshold >= 1 && FailuresSince(h) >= cfg.failureThreshold && Probes(cfg, h) > 0
    ensures ShutOut(cfg, h) <==> Probes(cfg, h) >= Max(1, cfg.halfOpenMax)
  {
    MachineTracks(cfg, h);
    if Probes(cfg, h) >= Max(1, cfg.halfOpenMax) {
      forall later, now | OnlyAsks(h, later)
        ensures !Admits(cfg, Run(cfg, later), now)
      {
        SaturatedStays(cfg, h, later, now);
      }
    } else {
      assert OnlyAsks(h, h) && Admits(cfg, Run(cfg, h), 0);
    }
  }

  // ---- Over an outage ----

  /** Nothing but failures recorded since base. */
  predicate Outage(base: History, h: History) {
    h == base || (h.Later? && !h.op.Success? && Outage(base, h.past))
  }

  function Admitted(cfg: Config, base: History, h: History): nat {
    if h == base || h.Start? then 0
    else Admitted(cfg, base, h.past)
         + (if h.op.Allow? && Admits(cfg, Run(cfg, h.past), h.op.now) then 1 else 0)
  }

  function Failed(base: History, h: History): nat {
    if h == base || h.Start? then 0 else Failed(base, h.past) + (if h.op.Failure? then 1 else 0)
  }

  lemma {:induction false} OutageTripped(cfg: Config, base: History, h: History)
    requires FailuresSince(base) >= cfg.failureThreshold && Outage(base, h)
    ensures FailuresSince(h) >= cfg.failureThreshold
  {
    if h != base { OutageTripped(cfg, base, h.past); }
  }

  lemma Product(n: int, m: int)
    ensures (n + 1) * m == n * m + m
  {
  }

  /** Calls let through before the latest failure, at most max(1, HalfOpenMax) for each. */
  lemma {:induction false} OutageSpent(cfg: Config, base: History, h: History)
    requires cfg.failureThreshold >= 1 && FailuresSince(base) >= cfg.failureThreshold && Outage(base, h)
    ensures Admitted(cfg, base, h) <= Failed(base, h) * Max(1, cfg.halfOpenMax) + Probes(cfg, h)
  {
    if h != base {
      OutageSpent(cfg, base, h.past);
      if h.op.Allow? {
        BreakerFollowsRule(cfg, h.past, h.op.now);
      } else {
        OutageTripped(cfg, base, h.past);
        EpisodeBound(cfg, h.past);
        Product(Failed(base, h.past), Max(1, cfg.halfOpenMax));
      }
    }
  }

  /** Once tripped, an outage lets through at most max(1, HalfOpenMax) calls per failure recorded,
      and as many again before the next. */
  lemma OutageBound(cfg: Config, base: History, h: History)
    requires cfg.failureThreshold >= 1 && FailuresSince(base) >= cfg.failureThreshold && Outage(base, h)
    ensures Admitted(cfg, base, h) <= (Failed(base, h) + 1) * Max(1, cfg.halfOpenMax)
  {
    OutageSpent(cfg, base, h);
    OutageTripped(cfg, base, h);
    EpisodeBound(cfg, h);
    Product(Failed(base, h), Max(1, cfg.halfOpenMax));
  }

  // ---- The breaker object ----

  class CircuitBreaker {
    var state: State
    var failures: nat
    var lastFailure: int
    var halfOpenActive: int
    const cfg: Config
    ghost var history: History

    ghost predicate Valid()
      reads this
    {
      View() == Run(cfg, history)
    }

    ghost function View(): Circuit
      reads this
    {
      Circuit(state, failures, lastFailure, halfOpenActive)
    }

    constructor (cfg: Config)
      ensures Valid() && this.cfg == cfg && history == Start
    {
      this.cfg := cfg;
      state, failures, lastFailure, halfOpenActive := Closed, 0, 0, 0;
      history := Start;
    }

    method Ask(now: int) returns (ok: bool)
      requires Valid()
      modifies this
      ensures Valid() && history == Later(old(history), Allow(now))
      ensures ok <==> Admits(cfg, old(View()), now)
      ensures cfg.failureThreshold >= 1 ==> (ok <==> Permitted(cfg, old(history), now))
    {
      if cfg.failureThreshold >= 1 { BreakerFollowsRule(cfg, history, now); }
      history := Later(history, Allow(now));
      match state {
        case Closed =>
          return true;
        case Open =>
          if now - lastFailure >= cfg.recoveryTimeout {
            state := HalfOpen;
            halfOpenActive := 1;
            return true;
          }
          return false;
        case HalfOpen =>
          if halfOpenActive < cfg.halfOpenMax {
            halfOpenActive := halfOpenActive + 1;
            return true;
          }
          return false;
      }
    }

    method RecordSuccess()
      requires Valid()
      modifies this
      ensures Valid() && history == Later(old(history), Success)
    {
      history := Later(history, Success);
      failures := 0;
      halfOpenActive := 0;
      state := Closed;
    }

    method RecordFailure(now: int)
      requires Valid()
      modifies this
      ensures Valid() && history == Later(old(history), Failure(now))
    {
      history := Later(history, Failure(now));
      failures := failures + 1;
      lastFailure := now;
      if state == HalfOpen {
        state := Open;
        halfOpenActive := 0;
        return;
      }
      if failures >= cfg.failureThreshold {
        state := Open;
      }
    }
  }
}
