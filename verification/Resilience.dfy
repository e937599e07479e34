// modelpolicy/resilience.go: retrying through the circuit breaker while other callers use it too.
module Resilience {
  import opened Common
  import opened Breaker

  /** ProviderError carries a status and the seconds of its Retry-After header (0 when absent or not
      a number); anything else is a connection or timeout error. */
  datatype CallError = Provider(status: int, retryAfter: int) | Network(message: string)

  datatype Reply = Answer(body: string) | Fails(error: CallError)

  datatype RetryConfig = RetryConfig(maxAttempts: int, baseBackoff: int, maxBackoff: int, backoffScale: real)

  type Unit = x: real | 0.0 <= x < 1.0

  const SECOND: int := 1_000_000_000

  predicate Retryable(e: CallError) {
    match e
    case Provider(status, _) => status >= 500 || status == 429
    case Network(_) => true
  }

  // ---- Backoff ----

  function Power(x: real, n: nat): real {
    if n == 0 then 1.0 else x * Power(x, n - 1)
  }

  function BackoffDuration(attempt: nat, cfg: RetryConfig, u: Unit): int {
    Rounded(Spread(Nominal(attempt, cfg), u), cfg.baseBackoff)
  }

  function Least(a: real, b: real): real {
    if a > b then b else a
  }

  /** The exponential schedule before jitter. */
  function Nominal(attempt: nat, cfg: RetryConfig): real {
    Least(Raw(attempt, cfg), cfg.maxBackoff as real)
  }

  function Raw(attempt: nat, cfg: RetryConfig): real {
    cfg.baseBackoff as real * Power(cfg.backoffScale, attempt)
  }

  /** Plus or minus a quarter. */
  function Spread(base: real, u: Unit): real {
    base + base * 0.25 * (2.0 * u - 1.0)
  }

  function Rounded(x: real, fallback: int): int {
    var d := Truncate(x);
    if d < 0 then fallback else d
  }

  function RetryAfter(e: CallError): int {
    if e.Provider? && e.retryAfter > 0 then e.retryAfter * SECOND else 0
  }

  ghost predicate Sensible(cfg: RetryConfig) {
    cfg.baseBackoff >= 0 && cfg.maxBackoff >= 0 && cfg.backoffScale >= 1.0
  }

  lemma {:induction false} PowerGrows(x: real, n: nat)
    requires x >= 1.0
    ensures 1.0 <= Power(x, n) <= Power(x, n + 1)
  {
    if n > 0 { PowerGrows(x, n - 1); }
    Scales(Power(x, n), 1.0, x);
  }

  lemma Scales(p: real, a: real, b: real)
    requires p >= 0.0 && a <= b
    ensures p * a <= p * b
  {
  }

  /** The nominal schedule never shrinks and never passes the cap. */
  lemma NominalBounds(attempt: nat, cfg: RetryConfig)
    requires Sensible(cfg)
    ensures 0.0 <= Nominal(attempt, cfg) <= Nominal(attempt + 1, cfg) <= cfg.maxBackoff as real
  {
    PowerGrows(cfg.backoffScale, attempt);
    Scales(cfg.baseBackoff as real, Power(cfg.backoffScale, attempt), Power(cfg.backoffScale, attempt + 1));
    Scales(cfg.baseBackoff as real, 0.0, Power(cfg.backoffScale, attempt));
  }

  /** Every wait lies within a quarter of the nominal schedule; truncation loses under a nanosecond. */
  lemma BackoffBounds(attempt: nat, cfg: RetryConfig, u: Unit)
    requires Sensible(cfg)
    ensures var d := BackoffDuration(attempt, cfg, u) as real;
            0.75 * Nominal(attempt, cfg) - 1.0 < d <= 1.25 * Nominal(attempt, cfg)
  {
    NominalBounds(attempt, cfg);
    SpreadBounds(Nominal(attempt, cfg), u);
    RoundedBounds(Spread(Nominal(attempt, cfg), u), cfg.baseBackoff);
  }

  lemma PowerStep(base: real, scale: real, n: nat)
    ensures base * Power(scale, n + 1) == scale * (base * Power(scale, n))
  {
  }

  lemma ScaleUp(cap: real, scale: real)
    requires cap >= 0.0 && scale >= 1.0
    ensures scale * cap >= cap
  {
    Scales(cap, 1.0, scale);
  }

  /** The schedule: the base delay, and then each time the one before scaled up, always cut off at the cap. */
  lemma NominalSteps(attempt: nat, cfg: RetryConfig)
    requires Sensible(cfg)
    ensures Nominal(0, cfg) == Least(cfg.baseBackoff as real, cfg.maxBackoff as real)
    ensures Nominal(attempt + 1, cfg) == Least(cfg.backoffScale * Nominal(attempt, cfg), cfg.maxBackoff as real)
  {
    RawSteps(attempt, cfg);
    CapStep(Raw(attempt, cfg), Raw(attempt + 1, cfg), cfg.maxBackoff as real, cfg.backoffScale);
  }

  lemma RawSteps(attempt: nat, cfg: RetryConfig)
    ensures Raw(0, cfg) == cfg.baseBackoff as real
    ensures Raw(attempt + 1, cfg) == cfg.backoffScale * Raw(attempt, cfg)
  {
    PowerStep(cfg.baseBackoff as real, cfg.backoffScale, attempt);
  }

  lemma CapStep(raw: real, next: real, cap: real, scale: real)
    requires cap >= 0.0 && scale >= 1.0 && next == scale * raw
    ensures Least(next, cap) == Least(scale * Least(raw, cap), cap)
  {
    if raw > cap {
      ScaleUp(raw, scale);
      ScaleUp(cap, scale);
    }
  }

  /** Every backoff is the schedule's delay times 0.75 to 1.25, by the jitter drawn, in whole nanoseconds. */
  lemma BackoffExactly(attempt: nat, cfg: RetryConfig, u: Unit)
    requires Sensible(cfg)
    ensures var d := BackoffDuration(attempt, cfg, u) as real;
            d <= Nominal(attempt, cfg) * (0.75 + 0.5 * u) < d + 1.0
  {
    var base := Nominal(attempt, cfg);
    NominalBounds(attempt, cfg);
    SpreadBounds(base, u);
    RoundedBounds(Spread(base, u), cfg.baseBackoff);
    SpreadIs(base, u);
  }

  lemma SpreadIs(base: real, u: Unit)
    ensures Spread(base, u) == base * (0.75 + 0.5 * u)
  {
  }

  lemma RoundedBounds(x: real, fallback: int)
    requires x >= 0.0
    ensures x - 1.0 < Rounded(x, fallback) as real <= x
  {
  }

  lemma SpreadBounds(base: real, u: Unit)
    requires base >= 0.0
    ensures 0.75 * base <= Spread(base, u) <= 1.25 * base
  {
    var p := base * u;
    Scales(base, 0.0, u);
    Scales(base, u, 1.0);
    assert base * 0.25 * (2.0 * u - 1.0) == 0.5 * p - 0.25 * base;
  }

  // ---- The retry loop ----

  /** The world around one attempt: whether the context ends during the wait before it, the jitter of
      that wait, what other callers do to the breaker before the admission request and while the
      inner call is out, and what the inner call replies. */
  datatype Turn = Turn(cancelled: bool, jitter: Unit, before: seq<Op>, askedAt: int,
                       reply: Reply, during: seq<Op>, repliedAt: int)

  datatype Attempt = Blocked | Called(reply: Reply)

  /** A wait: which retry it comes before (counting from 0), its jitter, and the attempt it follows. */
  datatype Wait = Wait(index: nat, jitter: Unit, last: Attempt)

  /** The attempts of one call so far, each but the first after a wait. */
  datatype Trail = Fresh | Then(earlier: Trail, wait: Option<Wait>, attempt: Attempt)

  function Count(t: Trail): nat {
    match t
    case Fresh => 0
    case Then(earlier, _, _) => Count(earlier) + 1
  }

  /** Nothing is a nil response with a nil error: no attempt was allowed for. */
  datatype Outcome = Response(body: string) | Failed(error: CallError) | CircuitOpen | Cancelled | Nothing

  function Extend(h: History, ops: seq<Op>): History {
    if ops == [] then h else Later(Extend(h, ops[..|ops| - 1]), ops[|ops| - 1])
  }

  /** What this caller reports to the breaker about an attempt; a non-retryable error goes unreported. */
  function Report(a: Attempt, at: int): Option<Op> {
    match a
    case Blocked => None
    case Called(Answer(_)) => Some(Success)
    case Called(Fails(e)) => if Retryable(e) then Some(Failure(at)) else None
  }

  /** The breaker's history after these attempts, with the other callers' operations woven in. */
  ghost function After(h: History, env: nat -> Turn, t: Trail): History {
    match t
    case Fresh => h
    case Then(earlier, _, a) =>
      var turn := env(Count(earlier));
      Reported(Later(Asking(After(h, env, earlier), turn), Allow(turn.askedAt)), turn, a)
  }

  /** The breaker's history when the caller asks for admission. */
  function Asking(h: History, turn: Turn): History {
    Extend(h, turn.before)
  }

  function Reported(asked: History, turn: Turn, a: Attempt): History {
    if a == Blocked then asked
    else
      match Report(a, turn.repliedAt)
      case None => Extend(asked, turn.during)
      case Some(op) => Later(Extend(asked, turn.during), op)
  }

  /** Each attempt was blocked exactly when the breaker did not admit it, and was otherwise given the
      reply the inner provider had for it. */
  ghost predicate Genuine(cfg: Config, h: History, env: nat -> Turn, t: Trail) {
    match t
    case Fresh => true
    case Then(earlier, _, a) =>
      && Genuine(cfg, h, env, earlier)
      && a == Tried(cfg, Asking(After(h, env, earlier), env(Count(earlier))), env(Count(earlier)))
  }

  function Tried(cfg: Config, asking: History, turn: Turn): Attempt {
    if Admits(cfg, Run(cfg, asking), turn.askedAt) then Called(turn.reply) else Blocked
  }

  /** The loop goes on after such an attempt. */
  predicate GoesOn(a: Attempt) {
    a == Blocked || (a.reply.Fails? && Retryable(a.reply.error))
  }

  function Verdict(last: Attempt): Outcome {
    match last
    case Blocked => CircuitOpen
    case Called(Answer(body)) => Response(body)
    case Called(Fails(e)) => Failed(e)
  }

  /** Every attempt so far goes on, and each but the first came after the right wait, during which
      the context did not end. */
  ghost predicate Underway(env: nat -> Turn, t: Trail) {
    match t
    case Fresh => true
    case Then(earlier, wait, a) => GoesOn(a) && Waited(env, earlier, wait) && Underway(env, earlier)
  }

  ghost predicate Waited(env: nat -> Turn, earlier: Trail, wait: Option<Wait>) {
    match earlier
    case Fresh => wait == None
    case Then(_, _, last) =>
      && !env(Count(earlier)).cancelled
      && wait == Some(Wait(Count(earlier) - 1, env(Count(earlier)).jitter, last))
  }

  /** The loop made these attempts and ended with this outcome: every attempt before the last goes on;
      the outcome is the last attempt's, unless the context ended first; and short of max it stops only
      on an answer, a non-retryable error or the end of the context. */
  ghost predicate Conducted(max: int, env: nat -> Turn, t: Trail, outcome: Outcome) {
    match t
    case Fresh => max <= 0 && outcome == Nothing
    case Then(earlier, wait, last) =>
      && Count(t) <= max
      && Underway(env, earlier)
      && Waited(env, earlier, wait)
      && (if outcome == Cancelled then GoesOn(last) && Count(t) < max && env(Count(t)).cancelled
          else outcome == Verdict(last) && (GoesOn(last) ==> Count(t) == max))
  }

  function Asked(a: Attempt): int {
    if a != Blocked && a.reply.Fails? then RetryAfter(a.reply.error) else 0
  }

  /** How long it lasts: the backoff, or the delay the last error asked for if that is longer. */
  function Length(w: Wait, cfg: RetryConfig): int {
    Max(BackoffDuration(w.index, cfg, w.jitter), Asked(w.last))
  }

  /** Never shorter than the seconds the server asked for, never shorter than the backoff, and one of the
      two. */
  lemma WaitBounds(w: Wait, cfg: RetryConfig)
    requires Sensible(cfg)
    ensures forall status, secs | w.last == Called(Fails(Provider(status, secs))) ::
              Length(w, cfg) >= secs * 1_000_000_000
    ensures Length(w, cfg) >= BackoffDuration(w.index, cfg, w.jitter) >= 0
    ensures Length(w, cfg) == BackoffDuration(w.index, cfg, w.jitter)
         || exists status, secs | w.last == Called(Fails(Provider(status, secs))) ::
              Length(w, cfg) == secs * 1_000_000_000
    ensures Length(w, cfg) as real > 0.75 * Nominal(w.index, cfg) - 1.0
    ensures (forall status, secs | w.last == Called(Fails(Provider(status, secs))) ::
               Length(w, cfg) > secs * 1_000_000_000)
            ==> Length(w, cfg) as real <= 1.25 * cfg.maxBackoff as real
  {
    BackoffExactly(w.index, cfg, w.jitter);
    BackoffBounds(w.index, cfg, w.jitter);
    NominalBounds(w.index, cfg);
  }

  class ResilientProvider {
    const retry: RetryConfig
    const breaker: CircuitBreaker

    constructor (retry: RetryConfig, cfg: Config)
      ensures this.retry == retry && fresh(breaker) && breaker.Valid() && breaker.cfg == cfg && breaker.history == Start
    {
      this.retry := retry;
      this.breaker := new CircuitBreaker(cfg);
    }

    /** Steps other callers take in between. */
    method Others(ops: seq<Op>)
      requires breaker.Valid()
      modifies breaker
      ensures breaker.Valid() && breaker.history == Extend(old(breaker.history), ops)
    {
      for i := 0 to |ops|
        invariant breaker.Valid() && breaker.history == Extend(old(breaker.history), ops[..i])
      {
        assert ops[..i + 1][..i] == ops[..i];
        match ops[i] {
          case Allow(now) => var _ := breaker.Ask(now);
          case Success => breaker.RecordSuccess();
          case Failure(now) => breaker.RecordFailure(now);
        }
      }
      assert ops[..|ops|] == ops;
    }

    method Pause(w: Wait) returns (wait: int)
      ensures wait == Length(w, retry)
    {
      wait := BackoffDuration(w.index, retry, w.jitter);
      var ra := Asked(w.last);
      if ra > wait {
        wait := ra;
      }
    }

    /** One attempt, among the others' steps. */
    method TryOnce(turn: Turn) returns (a: Attempt)
      requires breaker.Valid()
      modifies breaker
      ensures breaker.Valid()
      ensures a == Tried(breaker.cfg, Asking(old(breaker.history), turn), turn)
      ensures breaker.history == Reported(Later(Asking(old(breaker.history), turn), Allow(turn.askedAt)), turn, a)
    {
      Others(turn.before);
      var ok := breaker.Ask(turn.askedAt);
      if !ok { return Blocked; }
      Others(turn.during);
      match turn.reply {
        case Answer(_) =>
          breaker.RecordSuccess();
        case Fails(e) =>
          if Retryable(e) {
            breaker.RecordFailure(turn.repliedAt);
          }
      }
      return Called(turn.reply);
    }

    method ChatComplete(env: nat -> Turn) returns (outcome: Outcome, trail: Trail)
      requires breaker.Valid()
      modifies breaker
      ensures breaker.Valid() && breaker.history == After(old(breaker.history), env, trail)
      ensures Genuine(breaker.cfg, old(breaker.history), env, trail)
      ensures Conducted(retry.maxAttempts, env, trail, outcome)
    {
      trail, outcome := Fresh, Nothing;
      var attempt := 0;
      while attempt < retry.maxAttempts
        invariant attempt == Count(trail) <= Max(0, retry.maxAttempts)
        invariant breaker.Valid() && breaker.history == After(old(breaker.history), env, trail)
        invariant Genuine(breaker.cfg, old(breaker.history), env, trail)
        invariant Underway(env, trail)
        invariant outcome == if trail == Fresh then Nothing else Verdict(trail.attempt)
      {
        var turn := env(attempt);
        var wait := None;
        if attempt > 0 {
          wait := Some(Wait(attempt - 1, turn.jitter, trail.attempt));
          var _ := Pause(wait.value);
          if turn.cancelled {
            outcome := Cancelled;
            return;
          }
        }
        var a := TryOnce(turn);
        trail := Then(trail, wait, a);
        outcome := Verdict(a);
        if !GoesOn(a) { return; }
        attempt := attempt + 1;
      }
    }
  }

  // ---- What it means for callers ----

  predicate Asks(ops: seq<Op>) {
    forall i | 0 <= i < |ops| :: ops[i].Allow?
  }

  /** The breaker's history after a call that was let in and met a non-retryable error. */
  function AfterLost(h: History, turn: Turn): History {
    Reported(Later(h, Allow(turn.askedAt)), turn, Called(turn.reply))
  }

  ghost predicate Lost(cfg: Config, h: History, turn: Turn) {
    && Permitted(cfg, h, turn.askedAt)
    && turn.reply.Fails? && !Retryable(turn.reply.error)
    && Asks(turn.during)
  }

  lemma {:induction false} AsksOnlyProbe(cfg: Config, h: History, ops: seq<Op>)
    requires Asks(ops)
    ensures FailuresSince(Extend(h, ops)) == FailuresSince(h) && Probes(cfg, Extend(h, ops)) >= Probes(cfg, h)
    ensures ops == [] ==> Extend(h, ops) == h
  {
    if ops != [] { AsksOnlyProbe(cfg, h, ops[..|ops| - 1]); }
  }

  /** A probe lost to a non-retryable error is never reported: it leaves the breaker tripped with its
      slot taken.  From then on everybody is shut out exactly if the probes, lost or still out, have
      used up all slots. */
  lemma LostProbe(cfg: Config, h: History, turn: Turn)
    requires cfg.failureThreshold >= 1 && FailuresSince(h) >= cfg.failureThreshold && Lost(cfg, h, turn)
    ensures var lost := AfterLost(h, turn);
            && FailuresSince(lost) >= cfg.failureThreshold
            && Probes(cfg, lost) > Probes(cfg, h)
            && (turn.during == [] ==> Probes(cfg, lost) == Probes(cfg, h) + 1)
            && (ShutOut(cfg, lost) <==> Probes(cfg, lost) >= Max(1, cfg.halfOpenMax))
  {
    AsksOnlyProbe(cfg, Later(h, Allow(turn.askedAt)), turn.during);
    ShutOutExactly(cfg, AfterLost(h, turn));
  }

  const DEFAULT := Config(8, 60 * SECOND, 2)     // DefaultCircuitBreakerConfig

  function Failing(n: nat, at: int): History {
    if n == 0 then Start else Later(Failing(n - 1, at), Failure(at))
  }

  lemma {:induction false} FailingCounts(cfg: Config, n: nat, at: int)
    ensures FailuresSince(Failing(n, at)) == n && Probes(cfg, Failing(n, at)) == 0
    ensures n > 0 ==> LastFailure(Failing(n, at)) == at
  {
    if n > 0 { FailingCounts(cfg, n - 1, at); }
  }

  /** With the default settings two lost probes are enough: after enough failures, two callers that ask
      once the recovery time is over and meet a non-retryable error shut out everybody else. */
  lemma TwoLostProbes(n: nat, at: int, first: Turn, second: Turn)
    requires n >= DEFAULT.failureThreshold && first.askedAt - at >= DEFAULT.recoveryTimeout
    requires first.during == [] && first.reply.Fails? && !Retryable(first.reply.error)
    requires second.during == [] && second.reply.Fails? && !Retryable(second.reply.error)
    ensures ShutOut(DEFAULT, AfterLost(AfterLost(Failing(n, at), first), second))
  {
    FailingCounts(DEFAULT, n, at);
    LostProbe(DEFAULT, Failing(n, at), first);
    LostProbe(DEFAULT, AfterLost(Failing(n, at), first), second);
  }

  /** With nobody else calling, a call that goes on adds to the breaker's failures one for each time
      it reached the inner provider. */
  lemma {:induction false} FailuresAdded(h: History, env: nat -> Turn, t: Trail)
    requires Underway(env, t) && forall j: nat :: env(j).before == [] && env(j).during == []
    ensures FailuresSince(After(h, env, t)) == FailuresSince(h) + Calls(t)
  {
    if t.Then? {
      FailuresAdded(h, env, t.earlier);
      assert env(Count(t.earlier)).before == [];
    }
  }

  /** Attempts that reached the inner provider. */
  function Calls(t: Trail): nat {
    match t
    case Fresh => 0
    case Then(earlier, _, a) => Calls(earlier) + (if a == Blocked then 0 else 1)
  }

  lemma {:induction false} CallsAreAttempts(t: Trail)
    ensures Calls(t) <= Count(t)
  {
    if t.Then? { CallsAreAttempts(t.earlier); }
  }

  /** A call reaches the inner provider at most maxAttempts times, and returns a response exactly when
      its last attempt was answered. */
  lemma CallsBounded(max: int, env: nat -> Turn, t: Trail, outcome: Outcome)
    requires Conducted(max, env, t, outcome)
    ensures Calls(t) <= Max(0, max)
    ensures outcome.Response? <==> t.Then? && t.attempt.Called? && t.attempt.reply.Answer?
  {
    CallsAreAttempts(t);
  }

  // ---- Which errors are tried again ----

  /** A connection error, a 429, or a status of 500 and above. */
  predicate TransientError(e: CallError) {
    e.Network? || e.status == 429 || e.status >= 500
  }

  /** The attempts before the last were blocked or met a transient error; a last attempt that met one came at
      the limit or was followed by the end of the context; any other error ends the call with that error. */
  lemma ErrorsRetried(max: int, env: nat -> Turn, t: Trail, outcome: Outcome)
    requires Conducted(max, env, t, outcome) && t.Then?
    ensures AllTransient(t.earlier)
    ensures forall e | t.attempt == Called(Fails(e)) ::
              if TransientError(e)
              then (Count(t) == max && outcome == Failed(e)) || (Count(t) < max && outcome == Cancelled)
              else outcome == Failed(e)
  {
    UnderwayTransient(env, t.earlier);
  }

  ghost predicate AllTransient(t: Trail) {
    t.Then? ==>
      && AllTransient(t.earlier)
      && (t.attempt == Blocked || (t.attempt.reply.Fails? && TransientError(t.attempt.reply.error)))
  }

  lemma {:induction false} UnderwayTransient(env: nat -> Turn, t: Trail)
    requires Underway(env, t)
    ensures AllTransient(t)
  {
    if t.Then? { UnderwayTransient(env, t.earlier); }
  }

  /** What an attempt adds to the breaker's record of failures, when nobody else reports meanwhile: an answer
      clears it, a transient error adds one, and any other error or a refused attempt leaves it as it was. */
  lemma OutcomeCounted(h: History, turn: Turn, a: Attempt)
    requires turn.during == []
    ensures var after := Reported(Later(h, Allow(turn.askedAt)), turn, a);
            FailuresSince(after) ==
              match a
              case Blocked => FailuresSince(h)
              case Called(Answer(_)) => 0
              case Called(Fails(e)) => FailuresSince(h) + (if TransientError(e) then 1 else 0)
  {
  }
}
