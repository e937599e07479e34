// internal/governance/engine.go: the policy engine's decisions and the sliding windows they
// rest on, as functions of the engine's state.  Times and durations are nanoseconds.
module Governance {
  import opened Common
  import opened SlidingWindow

  const HOUR: int := 3_600_000_000_000
  const DAY: int := 86_400_000_000_000
  const MAX_RATE_BUCKETS: nat := 10000
  const MAX_LOOP_BUCKETS: nat := 10000

  datatype Category = Observe | Action

  /** A rate bucket's key.  The engine joins the two with ":", which keeps them apart: see
      RateKeysDiffer. */
  datatype RateKey = RateKey(agent: string, category: Category)

  datatype RateLimit = RateLimit(perHour: int, perDay: int, observePerHour: int, actionPerHour: int)

  datatype Segment = Segment(allowed: seq<string>, denied: seq<string>)

  /** The parts of governance.yml the engine reads; window is already parsed. */
  datatype Config = Config(
    agents: set<string>,
    segments: map<string, Segment>,
    limits: map<string, RateLimit>,
    loopMax: int,
    window: int,
    threshold: int)

  datatype Verdict = Allow | Deny(domain: Domain)

  datatype Domain = KillSwitch | Identity | Segmentation | Frozen | HourLimit | DayLimit | Loop

  /** Timestamps per key, failure counts, agents frozen by the breaker, agents killed by hand. */
  datatype State = State(
    rate: map<RateKey, seq<int>>,
    loops: map<string, seq<int>>,
    failures: map<string, int>,
    frozen: set<string>,
    killed: set<string>)

  const START := State(map[], map[], map[], {}, {})

  /** A call to check (target "" when the call names none), a recorded result, or the kill
      switch.  loopKey is where the loop detector files the call, and victims is what a bucket
      eviction during the call, if any, removes. */
  datatype Op =
    | Check(agent: string, tool: string, category: Category, target: string, now: int,
            loopKey: string, victims: set<RateKey>)
    | Result(agent: string, success: bool)
    | Kill(agent: string)
    | Revive(agent: string)

  // ---- Windows ----

  function Get<K>(m: map<K, seq<int>>, k: K): seq<int> {
    if k in m then m[k] else []
  }

  /** loopKey */
  function LoopKeyOf(agent: string, tool: string, target: string): string {
    agent + "|" + tool + "|" + target
  }

  /** rateBucketKey */
  function RateKeyText(k: RateKey): string {
    k.agent + ":" + if k.category.Observe? then "observe" else "action"
  }

  lemma RateKeysDiffer(j: RateKey, k: RateKey)
    ensures RateKeyText(j) == RateKeyText(k) ==> j == k
  {
    var s, t := RateKeyText(j), RateKeyText(k);
    if s == t {
      assert s[|s| - 1] == if j.category.Observe? then 'e' else 'n';
      assert t[|t| - 1] == if k.category.Observe? then 'e' else 'n';
      assert s[..|j.agent|] == j.agent && t[..|k.agent|] == k.agent;
    }
  }

  function HourlyLimit(l: RateLimit, c: Category): int {
    if c.Observe? && l.observePerHour > 0 then l.observePerHour
    else if c.Action? && l.actionPerHour > 0 then l.actionPerHour
    else l.perHour
  }

  // ---- InMemoryRateLimiter.Check ----

  function CompactRate(rate: map<RateKey, seq<int>>, key: RateKey, now: int): map<RateKey, seq<int>> {
    rate[key := Alive(Get(rate, key), now - DAY)]
  }

  function DayCount(rate: map<RateKey, seq<int>>, agent: string, now: int): int {
    |Alive(Get(rate, RateKey(agent, Observe)), now - DAY)| + |Alive(Get(rate, RateKey(agent, Action)), now - DAY)|
  }

  function RateDenial(rate: map<RateKey, seq<int>>, agent: string, c: Category, l: RateLimit, now: int)
    : Option<Domain>
  {
    var hourLimit := HourlyLimit(l, c);
    if hourLimit > 0 && |Alive(Get(rate, RateKey(agent, c)), now - HOUR)| >= hourLimit then Some(HourLimit)
    else if l.perDay > 0 && DayCount(CompactRate(rate, RateKey(agent, c), now), agent, now) >= l.perDay
      then Some(DayLimit)
    else None
  }

  // ---- InMemoryLoopDetector ----

  function CompactLoops(loops: map<string, seq<int>>, key: string, cutoff: int): map<string, seq<int>> {
    loops[key := Alive(Get(loops, key), cutoff)]
  }

  function RecordAttempt(loops: map<string, seq<int>>, key: string, now: int): map<string, seq<int>> {
    var added := loops[key := Get(loops, key) + [now]];
    if |added| > MAX_LOOP_BUCKETS
    then map k | k in added && Alive(added[k], now - DAY) != [] :: Alive(added[k], now - DAY)
    else added
  }

  // ---- InMemoryRateLimiter.RecordAction ----

  function Added(rate: map<RateKey, seq<int>>, key: RateKey, now: int): map<RateKey, seq<int>> {
    rate[key := Get(rate, key) + [now]]
  }

  /** Recording the call takes the limiter over its cap on buckets. */
  predicate Crowded(rate: map<RateKey, seq<int>>, key: RateKey, now: int) {
    |Added(rate, key, now)| > MAX_RATE_BUCKETS
  }

  function RecordAction(rate: map<RateKey, seq<int>>, key: RateKey, now: int, victims: set<RateKey>)
    : map<RateKey, seq<int>>
  {
    var added := Added(rate, key, now);
    if Crowded(rate, key, now) then added - victims else added
  }

  // ---- Engine.Check ----

  function SegmentDenies(cfg: Config, agent: string, tool: string): bool {
    agent !in cfg.segments || tool in cfg.segments[agent].denied || tool !in cfg.segments[agent].allowed
  }

  /** The rate buckets once the limiter, if it applies to this agent, has compacted the window. */
  function AfterRateCheck(cfg: Config, rate: map<RateKey, seq<int>>, op: Op): map<RateKey, seq<int>>
    requires op.Check?
  {
    if op.agent in cfg.limits then CompactRate(rate, RateKey(op.agent, op.category), op.now) else rate
  }

  predicate LoopChecked(cfg: Config, op: Op)
    requires op.Check?
  {
    op.target != "" && cfg.loopMax > 0
  }

  function AfterLoopCheck(cfg: Config, loops: map<string, seq<int>>, op: Op): map<string, seq<int>>
    requires op.Check?
  {
    if LoopChecked(cfg, op) then CompactLoops(loops, op.loopKey, op.now - cfg.window) else loops
  }

  predicate LoopDenies(cfg: Config, loops: map<string, seq<int>>, op: Op)
    requires op.Check?
  {
    LoopChecked(cfg, op) && |Alive(Get(loops, op.loopKey), op.now - cfg.window)| >= cfg.loopMax
  }

  function WithRate(rate: map<RateKey, seq<int>>, op: Op): map<RateKey, seq<int>>
    requires op.Check?
  {
    RecordAction(rate, RateKey(op.agent, op.category), op.now, op.victims)
  }

  function WithLoop(loops: map<string, seq<int>>, op: Op): map<string, seq<int>>
    requires op.Check?
  {
    if op.target != "" then RecordAttempt(loops, op.loopKey, op.now) else loops
  }

  /** checkBehavior: breaker, rate limits, loop detection; a call that passes is recorded. */
  function CheckBehavior(cfg: Config, s: State, op: Op): (State, Verdict)
    requires op.Check?
  {
    if op.agent in s.frozen then (s, Deny(Frozen))
    else
      var denial := if op.agent in cfg.limits
                    then RateDenial(s.rate, op.agent, op.category, cfg.limits[op.agent], op.now) else None;
      var rate := AfterRateCheck(cfg, s.rate, op);
      var loops := AfterLoopCheck(cfg, s.loops, op);
      if denial.Some? then (s.(rate := rate), Deny(denial.value))
      else if LoopDenies(cfg, s.loops, op) then (s.(rate := rate, loops := loops), Deny(Loop))
      else (s.(rate := WithRate(rate, op), loops := WithLoop(loops, op)), Allow)
  }

  /** The verdict, and the state the check leaves behind. */
  function CheckCall(cfg: Config, s: State, op: Op): (State, Verdict)
    requires op.Check?
  {
    if op.agent in s.killed then (s, Deny(KillSwitch))
    else if op.agent !in cfg.agents then (s, Deny(Identity))
    else if SegmentDenies(cfg, op.agent, op.tool) then (s, Deny(Segmentation))
    else CheckBehavior(cfg, s, op)
  }

  // ---- Engine.RecordResult ----

  function RecordResult(cfg: Config, s: State, agent: string, success: bool): State {
    if success then s.(failures := s.failures[agent := 0])
    else
      var count := (if agent in s.failures then s.failures[agent] else 0) + 1;
      var t := s.(failures := s.failures[agent := count]);
      if cfg.threshold > 0 && count >= cfg.threshold then t.(frozen := t.frozen + {agent}) else t
  }

  function Next(cfg: Config, s: State, op: Op): State {
    match op
    case Check(_, _, _, _, _, _, _) => CheckCall(cfg, s, op).0
    case Result(agent, success) => RecordResult(cfg, s, agent, success)
    case Kill(agent) => s.(killed := s.killed + {agent})
    case Revive(agent) => s.(killed := s.killed - {agent})
  }

  /** A run of the engine: each operation with the state it led to and, for a check, the
      verdict; latest outermost. */
  datatype History = Fresh | Later(past: History, op: Op, state: State, verdict: Verdict)

  function End(h: History): State {
    if h.Fresh? then START else h.state
  }

  /** Every step of the run is the engine's. */
  ghost predicate IsRun(cfg: Config, h: History) {
    h.Later? ==>
      && IsRun(cfg, h.past)
      && h.state == Next(cfg, End(h.past), h.op)
      && (h.op.Check? ==> h.verdict == CheckCall(cfg, End(h.past), h.op).1)
  }

  // ---- What a run granted, with no window or bucket in sight ----

  /** Allowed checks of this agent and category at times in (lo, hi]. */
  ghost function AllowedIn(h: History, agent: string, c: Category, lo: int, hi: int): nat {
    if h.Fresh? then 0
    else
      AllowedIn(h.past, agent, c, lo, hi)
      + if h.op.Check? && h.verdict == Allow && h.op.agent == agent && h.op.category == c && lo < h.op.now <= hi
        then 1 else 0
  }

  /** Allowed attempts on this agent, tool and target at times in (lo, hi]. */
  ghost function AttemptsIn(h: History, agent: string, tool: string, target: string, lo: int, hi: int): nat {
    if h.Fresh? then 0
    else
      AttemptsIn(h.past, agent, tool, target, lo, hi)
      + if h.op.Check? && h.verdict == Allow && h.op.agent == agent && h.op.tool == tool && h.op.target == target
           && lo < h.op.now <= hi
        then 1 else 0
  }

  /** Consecutive failures recorded for the agent, up to now. */
  ghost function Streak(h: History, agent: string): nat {
    if h.Fresh? then 0
    else if h.op.Result? && h.op.agent == agent then (if h.op.success then 0 else Streak(h.past, agent) + 1)
    else Streak(h.past, agent)
  }

  ghost function Clock(h: History, start: int): int {
    if h.Fresh? then start else if h.op.Check? then h.op.now else Clock(h.past, start)
  }

  /** Checks come with a clock that never goes back. */
  ghost predicate Ordered(h: History, start: int) {
    h.Later? ==> Ordered(h.past, start) && (h.op.Check? ==> Clock(h.past, start) <= h.op.now)
  }

  /** No eviction during the run removes this bucket. */
  ghost predicate Spared(cfg: Config, h: History, key: RateKey) {
    h.Later? ==>
      && Spared(cfg, h.past, key)
      && (h.op.Check? && h.verdict == Allow ==> Survives(AfterRateCheck(cfg, End(h.past).rate, h.op), h.op, key))
  }

  ghost predicate Survives(rate: map<RateKey, seq<int>>, op: Op, key: RateKey)
    requires op.Check?
  {
    Crowded(rate, RateKey(op.agent, op.category), op.now) ==> key !in op.victims
  }

  /** Every call is filed under its agent, tool and target. */
  ghost predicate Filed(h: History) {
    h.Later? ==> Filed(h.past) && (h.op.Check? ==> h.op.loopKey == LoopKeyOf(h.op.agent, h.op.tool, h.op.target))
  }
}
