// internal/governance/engine.go: what the engine's windows guarantee over whole histories.
module GovernanceLimits {
  import opened Common
  import opened SlidingWindow
  import opened Governance

  // ---- One check's effect on one bucket ----

  /** The width within which the loop detector never forgets. */
  function LoopSpan(cfg: Config): int {
    if cfg.window < DAY then cfg.window else DAY
  }

  /** What a check's verdict says about the rate buckets: a denied check leaves them alone or
      compacts them; an allowed one had room in every window, and records its time. */
  ghost predicate RateStaged(cfg: Config, rate: map<RateKey, seq<int>>, op: Op, after: map<RateKey, seq<int>>,
                             allowed: bool)
    requires op.Check?
  {
    var r := AfterRateCheck(cfg, rate, op);
    if allowed then
      && after == WithRate(r, op)
      && (op.agent in cfg.limits ==> RateDenial(rate, op.agent, op.category, cfg.limits[op.agent], op.now).None?)
    else after == rate || after == r
  }

  /** The same for the loop buckets. */
  ghost predicate LoopStaged(cfg: Config, loops: map<string, seq<int>>, op: Op, after: map<string, seq<int>>,
                             allowed: bool)
    requires op.Check?
  {
    var l := AfterLoopCheck(cfg, loops, op);
    if allowed then after == WithLoop(l, op) && !LoopDenies(cfg, loops, op) else after == loops || after == l
  }

  lemma CheckStagesRate(cfg: Config, s: State, op: Op)
    requires op.Check?
    ensures RateStaged(cfg, s.rate, op, CheckCall(cfg, s, op).0.rate, CheckCall(cfg, s, op).1 == Allow)
  {
  }

  lemma CheckStagesLoops(cfg: Config, s: State, op: Op)
    requires op.Check?
    ensures LoopStaged(cfg, s.loops, op, CheckCall(cfg, s, op).0.loops, CheckCall(cfg, s, op).1 == Allow)
  {
  }

  lemma RateCompacted(cfg: Config, rate: map<RateKey, seq<int>>, op: Op, key: RateKey)
    requires op.Check?
    ensures Same(Get(AfterRateCheck(cfg, rate, op), key), Get(rate, key), op.now - DAY)
  {
    SameCompacted(Get(rate, key), op.now - DAY, op.now - DAY);
  }

  lemma LoopCompacted(cfg: Config, loops: map<string, seq<int>>, op: Op, key: string)
    requires op.Check?
    ensures Same(Get(AfterLoopCheck(cfg, loops, op), key), Get(loops, key), op.now - LoopSpan(cfg))
  {
    SameCompacted(Get(loops, key), op.now - cfg.window, op.now - LoopSpan(cfg));
  }

  lemma RateRecorded(rate: map<RateKey, seq<int>>, op: Op, key: RateKey)
    requires op.Check? && Survives(rate, op, key)
    ensures Get(WithRate(rate, op), key) == Grown(Get(rate, key), op.now, RateKey(op.agent, op.category) == key)
  {
  }

  lemma LoopRecorded(loops: map<string, seq<int>>, op: Op, key: string, c: int)
    requires op.Check? && op.now - DAY <= c
    ensures Same(Get(WithLoop(loops, op), key),
                 Grown(Get(loops, key), op.now, op.target != "" && op.loopKey == key), c)
  {
    SameCompacted(Grown(Get(loops, key), op.now, op.target != "" && op.loopKey == key), op.now - DAY, c);
  }

  /** Perhaps compacted, then grown if the check went through: the same after the cutoff. */
  lemma Outcome(was: seq<int>, kept: seq<int>, after: seq<int>, now: int, allowed: bool, own: bool, c: int)
    requires Same(kept, was, c)
    requires if allowed then Same(after, Grown(kept, now, own), c) else after == was || after == kept
    ensures Same(after, Grown(was, now, allowed && own), c)
  {
    SameAppended(kept, was, c, now);
  }

  lemma RateOutcome(cfg: Config, rate: map<RateKey, seq<int>>, op: Op, after: map<RateKey, seq<int>>, allowed: bool,
                    key: RateKey)
    requires op.Check? && RateStaged(cfg, rate, op, after, allowed)
    requires allowed ==> Survives(AfterRateCheck(cfg, rate, op), op, key)
    ensures Same(Get(after, key),
                 Grown(Get(rate, key), op.now, allowed && RateKey(op.agent, op.category) == key), op.now - DAY)
  {
    var r := AfterRateCheck(cfg, rate, op);
    RateCompacted(cfg, rate, op, key);
    if allowed { RateRecorded(r, op, key); }
    Outcome(Get(rate, key), Get(r, key), Get(after, key), op.now, allowed,
            RateKey(op.agent, op.category) == key, op.now - DAY);
  }

  lemma LoopOutcome(cfg: Config, loops: map<string, seq<int>>, op: Op, after: map<string, seq<int>>, allowed: bool,
                    key: string)
    requires op.Check? && LoopStaged(cfg, loops, op, after, allowed)
    ensures Same(Get(after, key),
                 Grown(Get(loops, key), op.now, allowed && op.target != "" && op.loopKey == key),
                 op.now - LoopSpan(cfg))
  {
    var l, c := AfterLoopCheck(cfg, loops, op), op.now - LoopSpan(cfg);
    LoopCompacted(cfg, loops, op, key);
    LoopRecorded(l, op, key, c);
    Outcome(Get(loops, key), Get(l, key), Get(after, key), op.now, allowed, op.target != "" && op.loopKey == key, c);
  }

  // ---- One bucket through a whole run ----

  /** Every check of the run is staged, and nothing else touches the rate buckets. */
  ghost predicate RateRun(cfg: Config, h: History) {
    h.Later? ==>
      && RateRun(cfg, h.past)
      && (if h.op.Check? then RateStaged(cfg, End(h.past).rate, h.op, h.state.rate, h.verdict == Allow)
          else h.state.rate == End(h.past).rate)
  }

  ghost predicate LoopRun(cfg: Config, h: History) {
    h.Later? ==>
      && LoopRun(cfg, h.past)
      && (if h.op.Check? then LoopStaged(cfg, End(h.past).loops, h.op, h.state.loops, h.verdict == Allow)
          else h.state.loops == End(h.past).loops)
  }

  lemma {:induction false} RunStaged(cfg: Config, h: History)
    requires IsRun(cfg, h)
    ensures RateRun(cfg, h) && LoopRun(cfg, h)
  {
    if h.Later? {
      RunStaged(cfg, h.past);
      if h.op.Check? {
        CheckStagesRate(cfg, End(h.past), h.op);
        CheckStagesLoops(cfg, End(h.past), h.op);
      }
    }
  }

  ghost function RateTick(h: History, key: RateKey): Tick
    requires h.Later? && h.op.Check?
  {
    Tick(h.op.now, Get(End(h.past).rate, key), Get(h.state.rate, key),
         h.verdict == Allow && RateKey(h.op.agent, h.op.category) == key)
  }

  ghost function LoopTick(h: History, key: string): Tick
    requires h.Later? && h.op.Check?
  {
    Tick(h.op.now, Get(End(h.past).loops, key), Get(h.state.loops, key),
         h.verdict == Allow && h.op.target != "" && h.op.loopKey == key)
  }

  ghost function RateTicks(h: History, key: RateKey): Ticks {
    if h.Fresh? then NoTicks
    else if h.op.Check? then Then(RateTicks(h.past, key), RateTick(h, key))
    else RateTicks(h.past, key)
  }

  ghost function LoopTicks(h: History, key: string): Ticks {
    if h.Fresh? then NoTicks
    else if h.op.Check? then Then(LoopTicks(h.past, key), LoopTick(h, key))
    else LoopTicks(h.past, key)
  }

  /** A check appends its time to a rate bucket exactly when it is allowed under that key, and
      forgets nothing from the last day. */
  lemma RateKeeps(cfg: Config, h: History, key: RateKey)
    requires h.Later? && h.op.Check?
    requires RateStaged(cfg, End(h.past).rate, h.op, h.state.rate, h.verdict == Allow)
    requires h.verdict == Allow ==> Survives(AfterRateCheck(cfg, End(h.past).rate, h.op), h.op, key)
    ensures Keeps(RateTick(h, key), DAY)
  {
    RateOutcome(cfg, End(h.past).rate, h.op, h.state.rate, h.verdict == Allow, key);
  }

  /** The same for a loop bucket, within the span it never forgets. */
  lemma LoopKeeps(cfg: Config, h: History, key: string)
    requires h.Later? && h.op.Check?
    requires LoopStaged(cfg, End(h.past).loops, h.op, h.state.loops, h.verdict == Allow)
    ensures Keeps(LoopTick(h, key), LoopSpan(cfg))
  {
    LoopOutcome(cfg, End(h.past).loops, h.op, h.state.loops, h.verdict == Allow, key);
  }

  lemma {:induction false} RateChain(cfg: Config, h: History, start: int, key: RateKey)
    requires RateRun(cfg, h) && Ordered(h, start) && Spared(cfg, h, key)
    ensures Chain(RateTicks(h, key), start, DAY)
    ensures Bucket(RateTicks(h, key)) == Get(End(h).rate, key)
    ensures LastTick(RateTicks(h, key), start) == Clock(h, start)
  {
    if h.Later? {
      RateChain(cfg, h.past, start, key);
      if h.op.Check? {
        RateKeeps(cfg, h, key);
      }
    }
  }

  lemma {:induction false} LoopChain(cfg: Config, h: History, start: int, key: string)
    requires LoopRun(cfg, h) && Ordered(h, start)
    ensures Chain(LoopTicks(h, key), start, LoopSpan(cfg))
    ensures Bucket(LoopTicks(h, key)) == Get(End(h).loops, key)
    ensures LastTick(LoopTicks(h, key), start) == Clock(h, start)
  {
    if h.Later? {
      LoopChain(cfg, h.past, start, key);
      if h.op.Check? {
        LoopKeeps(cfg, h, key);
      }
    }
  }

  // ---- Granted checks had room ----

  lemma RateHadRoom(rate: map<RateKey, seq<int>>, agent: string, c: Category, l: RateLimit, now: int)
    requires RateDenial(rate, agent, c, l, now).None?
    ensures HourlyLimit(l, c) > 0 ==> |Alive(Get(rate, RateKey(agent, c)), now - HOUR)| < HourlyLimit(l, c)
    ensures l.perDay > 0 ==> DayCount(rate, agent, now) < l.perDay
  {
    AliveTwice(Get(rate, RateKey(agent, c)), now - DAY, now - DAY);
  }

  lemma {:induction false} HourRoom(cfg: Config, h: History, key: RateKey)
    requires RateRun(cfg, h) && key.agent in cfg.limits
    requires HourlyLimit(cfg.limits[key.agent], key.category) > 0
    ensures HadRoom(RateTicks(h, key), HOUR, HourlyLimit(cfg.limits[key.agent], key.category))
  {
    if h.Later? {
      HourRoom(cfg, h.past, key);
      if h.op.Check? && RateTick(h, key).hit {
        RateHadRoom(End(h.past).rate, key.agent, key.category, cfg.limits[key.agent], h.op.now);
      }
    }
  }

  lemma DayTick(cfg: Config, h: History, agent: string)
    requires h.Later? && h.op.Check?
    requires RateStaged(cfg, End(h.past).rate, h.op, h.state.rate, h.verdict == Allow)
    requires agent in cfg.limits && cfg.limits[agent].perDay > 0
    ensures PairRoom(RateTick(h, RateKey(agent, Observe)), RateTick(h, RateKey(agent, Action)), DAY,
                     cfg.limits[agent].perDay)
  {
    if h.op.agent == agent && h.verdict == Allow {
      RateHadRoom(End(h.past).rate, agent, h.op.category, cfg.limits[agent], h.op.now);
    }
  }

  lemma {:induction false} DayRoom(cfg: Config, h: History, agent: string)
    requires RateRun(cfg, h) && agent in cfg.limits && cfg.limits[agent].perDay > 0
    ensures SharedRoom(RateTicks(h, RateKey(agent, Observe)), RateTicks(h, RateKey(agent, Action)), DAY,
                       cfg.limits[agent].perDay)
  {
    if h.Later? {
      DayRoom(cfg, h.past, agent);
      if h.op.Check? {
        DayTick(cfg, h, agent);
      }
    }
  }

  lemma {:induction false} LoopRoom(cfg: Config, h: History, key: string)
    requires LoopRun(cfg, h) && cfg.loopMax > 0
    ensures HadRoom(LoopTicks(h, key), LoopSpan(cfg), cfg.loopMax)
  {
    if h.Later? {
      LoopRoom(cfg, h.past, key);
      if h.op.Check? {
        AliveTwice(Get(End(h.past).loops, key), h.op.now - cfg.window, h.op.now - LoopSpan(cfg));
      }
    }
  }

  // ---- Grants are logged ----

  lemma {:induction false} AllowedAreLogged(h: History, agent: string, c: Category, lo: int, hi: int)
    ensures AllowedIn(h, agent, c, lo, hi) == CountIn(Log(RateTicks(h, RateKey(agent, c))), lo, hi)
  {
    if h.Later? {
      AllowedAreLogged(h.past, agent, c, lo, hi);
      if h.op.Check? {
        CountAppend(Log(RateTicks(h.past, RateKey(agent, c))), h.op.now, lo, hi);
      }
    }
  }

  lemma {:induction false} AttemptsAreLogged(h: History, agent: string, tool: string, target: string, lo: int, hi: int)
    requires Filed(h) && target != ""
    ensures AttemptsIn(h, agent, tool, target, lo, hi)
         <= CountIn(Log(LoopTicks(h, LoopKeyOf(agent, tool, target))), lo, hi)
  {
    if h.Later? {
      AttemptsAreLogged(h.past, agent, tool, target, lo, hi);
      if h.op.Check? {
        CountAppend(Log(LoopTicks(h.past, LoopKeyOf(agent, tool, target))), h.op.now, lo, hi);
      }
    }
  }

  // ---- The limits, over every run ----

  lemma HourKeyBound(cfg: Config, h: History, start: int, agent: string, c: Category, x: int)
    requires IsRun(cfg, h) && Ordered(h, start) && Spared(cfg, h, RateKey(agent, c))
    requires agent in cfg.limits && HourlyLimit(cfg.limits[agent], c) > 0
    ensures AllowedIn(h, agent, c, x - HOUR, x) <= HourlyLimit(cfg.limits[agent], c)
  {
    var key := RateKey(agent, c);
    RunStaged(cfg, h);
    RateChain(cfg, h, start, key);
    HourRoom(cfg, h, key);
    AllowedAreLogged(h, agent, c, x - HOUR, x);
    WindowBound(RateTicks(h, key), start, DAY, HOUR, HourlyLimit(cfg.limits[agent], c), x);
  }

  /** In any hour, however it lies, an agent gets no more allowed calls of a category than the limit set for
      that category, or where none is set, than the limit set for either. */
  lemma HourlyBound(cfg: Config, h: History, start: int, agent: string, c: Category, x: int)
    requires IsRun(cfg, h) && Ordered(h, start) && Spared(cfg, h, RateKey(agent, c)) && agent in cfg.limits
    ensures var l, n := cfg.limits[agent], AllowedIn(h, agent, c, x - 3_600_000_000_000, x);
            && (c == Observe && l.observePerHour > 0 ==> n <= l.observePerHour)
            && (c == Action && l.actionPerHour > 0 ==> n <= l.actionPerHour)
            && (c == Observe && l.observePerHour <= 0 && l.perHour > 0 ==> n <= l.perHour)
            && (c == Action && l.actionPerHour <= 0 && l.perHour > 0 ==> n <= l.perHour)
  {
    if HourlyLimit(cfg.limits[agent], c) > 0 { HourKeyBound(cfg, h, start, agent, c, x); }
  }

  /** In any day it gets no more of both categories together than its daily limit. */
  lemma DailyBound(cfg: Config, h: History, start: int, agent: string, x: int)
    requires IsRun(cfg, h) && Ordered(h, start)
    requires Spared(cfg, h, RateKey(agent, Observe)) && Spared(cfg, h, RateKey(agent, Action))
    requires agent in cfg.limits && cfg.limits[agent].perDay > 0
    ensures AllowedIn(h, agent, Observe, x - 24 * 3_600_000_000_000, x)
            + AllowedIn(h, agent, Action, x - 24 * 3_600_000_000_000, x) <= cfg.limits[agent].perDay
  {
    var a, b := RateKey(agent, Observe), RateKey(agent, Action);
    RunStaged(cfg, h);
    RateChain(cfg, h, start, a);
    RateChain(cfg, h, start, b);
    DayRoom(cfg, h, agent);
    AllowedAreLogged(h, agent, Observe, x - DAY, x);
    AllowedAreLogged(h, agent, Action, x - DAY, x);
    SharedBound(RateTicks(h, a), RateTicks(h, b), start, DAY, DAY, cfg.limits[agent].perDay, x);
  }

  /** In any stretch as long as the loop window, and at most a day, it gets no more allowed
      attempts with one tool on one target than the loop limit. */
  lemma LoopBound(cfg: Config, h: History, start: int, agent: string, tool: string, target: string, x: int)
    requires IsRun(cfg, h) && Ordered(h, start) && Filed(h) && target != "" && cfg.loopMax > 0
    ensures AttemptsIn(h, agent, tool, target, x - LoopSpan(cfg), x) <= cfg.loopMax
  {
    LoopKeyBound(cfg, h, start, LoopKeyOf(agent, tool, target), x);
    AttemptsAreLogged(h, agent, tool, target, x - LoopSpan(cfg), x);
  }

  lemma LoopKeyBound(cfg: Config, h: History, start: int, key: string, x: int)
    requires IsRun(cfg, h) && Ordered(h, start) && cfg.loopMax > 0
    ensures CountIn(Log(LoopTicks(h, key)), x - LoopSpan(cfg), x) <= cfg.loopMax
  {
    RunStaged(cfg, h);
    LoopChain(cfg, h, start, key);
    LoopRoom(cfg, h, key);
    WindowBound(LoopTicks(h, key), start, LoopSpan(cfg), LoopSpan(cfg), cfg.loopMax, x);
  }

  // ---- When buckets can be evicted at all ----

  ghost function Keys(agents: set<string>): set<RateKey> {
    (set a | a in agents :: RateKey(a, Observe)) + (set a | a in agents :: RateKey(a, Action))
  }

  lemma {:induction false} KeysSize(agents: set<string>)
    ensures |Keys(agents)| <= 2 * |agents|
  {
    if agents != {} {
      var a :| a in agents;
      var rest := agents - {a};
      KeysSize(rest);
      assert Keys(agents) == Keys(rest) + {RateKey(a, Observe), RateKey(a, Action)};
    }
  }

  lemma SubsetSize<T>(a: set<T>, b: set<T>)
    requires a <= b
    ensures |a| <= |b|
  {
    assert b == a + (b - a);
  }

  /** Only calls of known agents reach the limiter, so only their buckets exist. */
  lemma {:induction false} OnlyKnownAgents(cfg: Config, h: History)
    requires IsRun(cfg, h)
    ensures End(h).rate.Keys <= Keys(cfg.agents)
  {
    if h.Later? {
      OnlyKnownAgents(cfg, h.past);
      if h.op.Check? && h.op.agent in cfg.agents {
        KnownBucket(cfg, End(h.past).rate, h.op);
        CheckStagesRate(cfg, End(h.past), h.op);
      }
    }
  }

  lemma KnownBucket(cfg: Config, rate: map<RateKey, seq<int>>, op: Op)
    requires op.Check? && op.agent in cfg.agents && rate.Keys <= Keys(cfg.agents)
    ensures AfterRateCheck(cfg, rate, op).Keys <= Keys(cfg.agents)
    ensures Added(AfterRateCheck(cfg, rate, op), RateKey(op.agent, op.category), op.now).Keys <= Keys(cfg.agents)
    ensures WithRate(AfterRateCheck(cfg, rate, op), op).Keys <= Keys(cfg.agents)
  {
    assert RateKey(op.agent, Observe) in Keys(cfg.agents) && RateKey(op.agent, Action) in Keys(cfg.agents);
    assert op.category == Observe || op.category == Action;
  }

  /** With no more than half the cap's number of agents configured, nothing is ever evicted, and
      the limits above hold unconditionally. */
  lemma {:induction false} NothingEvicted(cfg: Config, h: History, key: RateKey)
    requires IsRun(cfg, h) && 2 * |cfg.agents| <= MAX_RATE_BUCKETS
    ensures Spared(cfg, h, key)
  {
    if h.Later? {
      NothingEvicted(cfg, h.past, key);
      if h.op.Check? && h.verdict == Allow {
        var rate := AfterRateCheck(cfg, End(h.past).rate, h.op);
        var added := Added(rate, RateKey(h.op.agent, h.op.category), h.op.now);
        OnlyKnownAgents(cfg, h.past);
        AllowedIsKnown(cfg, End(h.past), h.op);
        KnownBucket(cfg, End(h.past).rate, h.op);
        SubsetSize(added.Keys, Keys(cfg.agents));
        KeysSize(cfg.agents);
      }
    }
  }

  lemma AllowedIsKnown(cfg: Config, s: State, op: Op)
    requires op.Check? && CheckCall(cfg, s, op).1 == Allow
    ensures op.agent in cfg.agents && op.agent !in s.frozen && op.agent !in s.killed
    ensures !SegmentDenies(cfg, op.agent, op.tool)
  {
  }

  // ---- The consecutive-failure breaker ----

  /** At some point of the run the agent's failures in a row reached the threshold. */
  ghost predicate Tripped(cfg: Config, h: History, agent: string) {
    h.Later? && (Tripped(cfg, h.past, agent) || (cfg.threshold > 0 && Streak(h, agent) >= cfg.threshold))
  }

  lemma {:induction false} BreakerTracks(cfg: Config, h: History, agent: string)
    requires IsRun(cfg, h)
    ensures agent in End(h).frozen <==> Tripped(cfg, h, agent)
    ensures (if agent in End(h).failures then End(h).failures[agent] else 0) == Streak(h, agent)
  {
    if h.Later? {
      BreakerTracks(cfg, h.past, agent);
      if h.op.Check? {
        CheckKeepsBreaker(cfg, End(h.past), h.op);
      }
    }
  }

  lemma CheckKeepsBreaker(cfg: Config, s: State, op: Op)
    requires op.Check?
    ensures CheckCall(cfg, s, op).0.frozen == s.frozen && CheckCall(cfg, s, op).0.failures == s.failures
  {
  }

  /** Once an agent has failed that often in a row it is never allowed anything again, whatever
      is recorded afterwards; until then the breaker denies it nothing. */
  lemma FrozenForGood(cfg: Config, h: History, agent: string)
    requires IsRun(cfg, h) && h.Later? && h.op.Check? && h.op.agent == agent
    ensures Tripped(cfg, h.past, agent) ==> h.verdict.Deny?
    ensures !Tripped(cfg, h.past, agent) ==> h.verdict != Deny(Frozen)
  {
    BreakerTracks(cfg, h.past, agent);
  }
}
