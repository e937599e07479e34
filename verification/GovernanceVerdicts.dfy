// internal/governance/engine.go: every verdict of the engine, decided from the history alone: who was killed,
// which results were recorded, and which calls were allowed when.
module GovernanceVerdicts {
  import opened Common
  import opened SlidingWindow
  import opened Governance
  import opened GovernanceLimits

  // ---- What the windows hold ----

  lemma {:induction false} AliveIsCount(ts: seq<int>, lo: int, hi: int, n: nat)
    requires n <= |ts| && forall i | 0 <= i < n :: ts[i] <= hi
    ensures |AliveIn(ts, lo, n)| == CountFirst(ts, lo, hi, n)
  {
    if n > 0 { AliveIsCount(ts, lo, hi, n - 1); }
  }

  lemma {:induction false} LogBelow(ticks: Ticks, start: int, w: int)
    requires Chain(ticks, start, w)
    ensures forall i | 0 <= i < |Log(ticks)| :: Log(ticks)[i] <= LastTick(ticks, start)
  {
    if ticks.Then? { LogBelow(ticks.front, start, w); }
  }

  /** A window of a bucket holds as many times as were granted under its key. */
  lemma WindowHolds(ticks: Ticks, start: int, w: int, v: int, now: int)
    requires Chain(ticks, start, w) && LastTick(ticks, start) <= now && v <= w
    ensures |Alive(Bucket(ticks), now - v)| == CountIn(Log(ticks), now - v, now)
  {
    LogHasRoom(ticks, start, w, now, v);
    LogBelow(ticks, start, w);
    AliveIsCount(Log(ticks), now - v, now, |Log(ticks)|);
  }

  lemma RateWindow(cfg: Config, h: History, start: int, agent: string, c: Category, v: int, now: int)
    requires IsRun(cfg, h) && Ordered(h, start) && Spared(cfg, h, RateKey(agent, c))
    requires Clock(h, start) <= now && v <= DAY
    ensures |Alive(Get(End(h).rate, RateKey(agent, c)), now - v)| == AllowedIn(h, agent, c, now - v, now)
  {
    var key := RateKey(agent, c);
    RunStaged(cfg, h);
    RateChain(cfg, h, start, key);
    WindowHolds(RateTicks(h, key), start, DAY, v, now);
    AllowedAreLogged(h, agent, c, now - v, now);
  }

  /** Allowed attempts filed under this key at times in (lo, hi]. */
  ghost function AttemptsOn(h: History, key: string, lo: int, hi: int): nat {
    if h.Fresh? then 0
    else
      AttemptsOn(h.past, key, lo, hi)
      + if h.op.Check? && h.verdict == Allow && h.op.target != "" && h.op.loopKey == key && lo < h.op.now <= hi
        then 1 else 0
  }

  lemma {:induction false} AttemptsLogged(h: History, key: string, lo: int, hi: int)
    ensures AttemptsOn(h, key, lo, hi) == CountIn(Log(LoopTicks(h, key)), lo, hi)
  {
    if h.Later? {
      AttemptsLogged(h.past, key, lo, hi);
      if h.op.Check? { CountAppend(Log(LoopTicks(h.past, key)), h.op.now, lo, hi); }
    }
  }

  lemma LoopWindow(cfg: Config, h: History, start: int, key: string, now: int)
    requires IsRun(cfg, h) && Ordered(h, start) && Clock(h, start) <= now && cfg.window <= DAY
    ensures |Alive(Get(End(h).loops, key), now - cfg.window)| == AttemptsOn(h, key, now - cfg.window, now)
  {
    RunStaged(cfg, h);
    LoopChain(cfg, h, start, key);
    WindowHolds(LoopTicks(h, key), start, LoopSpan(cfg), cfg.window, now);
    AttemptsLogged(h, key, now - cfg.window, now);
  }

  // ---- The rule ----

  /** The latest kill or revival of the agent was a kill. */
  ghost predicate Killed(h: History, agent: string) {
    && h.Later?
    && if (h.op.Kill? || h.op.Revive?) && h.op.agent == agent then h.op.Kill? else Killed(h.past, agent)
  }

  /** n calls of this category are as many as are permitted in an hour. */
  predicate HourReached(l: RateLimit, c: Category, n: nat) {
    || (c == Observe && l.observePerHour > 0 && n >= l.observePerHour)
    || (c == Action && l.actionPerHour > 0 && n >= l.actionPerHour)
    || (c == Observe && l.observePerHour <= 0 && l.perHour > 0 && n >= l.perHour)
    || (c == Action && l.actionPerHour <= 0 && l.perHour > 0 && n >= l.perHour)
  }

  /** That many calls of this category were allowed in the last hour. */
  ghost predicate HourUsedUp(cfg: Config, past: History, agent: string, c: Category, now: int) {
    agent in cfg.limits && HourReached(cfg.limits[agent], c, AllowedIn(past, agent, c, now - 3_600_000_000_000, now))
  }

  /** As many calls of both categories were allowed in the last 24 hours as are permitted. */
  ghost predicate DayUsedUp(cfg: Config, past: History, agent: string, now: int) {
    && agent in cfg.limits && cfg.limits[agent].perDay > 0
    && AllowedIn(past, agent, Observe, now - 24 * 3_600_000_000_000, now)
       + AllowedIn(past, agent, Action, now - 24 * 3_600_000_000_000, now) >= cfg.limits[agent].perDay
  }

  /** As many attempts on the target were allowed within the loop window as are permitted. */
  ghost predicate LoopUsedUp(cfg: Config, past: History, key: string, target: string, now: int) {
    target != "" && cfg.loopMax > 0 && AttemptsOn(past, key, now - cfg.window, now) >= cfg.loopMax
  }

  /** The verdict on a call after this history. */
  ghost function Rule(cfg: Config, past: History, op: Op): Verdict
    requires op.Check?
  {
    var a := op.agent;
    if Killed(past, a) then Deny(KillSwitch)
    else if a !in cfg.agents then Deny(Identity)
    else if a !in cfg.segments || op.tool in cfg.segments[a].denied || op.tool !in cfg.segments[a].allowed
      then Deny(Segmentation)
    else if Tripped(cfg, past, a) then Deny(Frozen)
    else if HourUsedUp(cfg, past, a, op.category, op.now) then Deny(HourLimit)
    else if DayUsedUp(cfg, past, a, op.now) then Deny(DayLimit)
    else if LoopUsedUp(cfg, past, op.loopKey, op.target, op.now) then Deny(Loop)
    else Allow
  }

  lemma {:induction false} KilledTracks(cfg: Config, h: History, agent: string)
    requires IsRun(cfg, h)
    ensures agent in End(h).killed <==> Killed(h, agent)
  {
    if h.Later? {
      KilledTracks(cfg, h.past, agent);
      if h.op.Check? { CheckKeepsKilled(cfg, End(h.past), h.op); }
    }
  }

  lemma CheckKeepsKilled(cfg: Config, s: State, op: Op)
    requires op.Check?
    ensures CheckCall(cfg, s, op).0.killed == s.killed
  {
  }

  lemma DayWindow(rate: map<RateKey, seq<int>>, agent: string, c: Category, now: int)
    ensures DayCount(CompactRate(rate, RateKey(agent, c), now), agent, now) == DayCount(rate, agent, now)
  {
    AliveTwice(Get(rate, RateKey(agent, c)), now - DAY, now - DAY);
  }

  lemma RateDecision(rate: map<RateKey, seq<int>>, l: RateLimit, agent: string, c: Category, now: int, n: nat, m: nat)
    requires |Alive(Get(rate, RateKey(agent, c)), now - HOUR)| == n && DayCount(rate, agent, now) == m
    ensures RateDenial(rate, agent, c, l, now)
            == if HourReached(l, c, n) then Some(HourLimit)
               else if l.perDay > 0 && m >= l.perDay then Some(DayLimit) else None
  {
    DayWindow(rate, agent, c, now);
  }

  lemma RateFollows(cfg: Config, past: History, start: int, agent: string, c: Category, now: int)
    requires IsRun(cfg, past) && Ordered(past, start) && Clock(past, start) <= now && agent in cfg.limits
    requires Spared(cfg, past, RateKey(agent, Observe)) && Spared(cfg, past, RateKey(agent, Action))
    ensures RateDenial(End(past).rate, agent, c, cfg.limits[agent], now)
            == if HourUsedUp(cfg, past, agent, c, now) then Some(HourLimit)
               else if DayUsedUp(cfg, past, agent, now) then Some(DayLimit) else None
  {
    RateWindow(cfg, past, start, agent, c, HOUR, now);
    RateWindow(cfg, past, start, agent, Observe, DAY, now);
    RateWindow(cfg, past, start, agent, Action, DAY, now);
    RateDecision(End(past).rate, cfg.limits[agent], agent, c, now, AllowedIn(past, agent, c, now - HOUR, now),
                 AllowedIn(past, agent, Observe, now - DAY, now) + AllowedIn(past, agent, Action, now - DAY, now));
  }

  lemma LoopDecision(cfg: Config, loops: map<string, seq<int>>, op: Op, n: nat)
    requires op.Check? && |Alive(Get(loops, op.loopKey), op.now - cfg.window)| == n
    ensures LoopDenies(cfg, loops, op) <==> op.target != "" && cfg.loopMax > 0 && n >= cfg.loopMax
  {
  }

  /** Every verdict in every run with no bucket evicted and a loop window of at most a day is the rule's. */
  lemma VerdictExact(cfg: Config, h: History, start: int)
    requires IsRun(cfg, h) && h.Later? && h.op.Check? && Ordered(h, start) && cfg.window <= DAY
    requires Spared(cfg, h.past, RateKey(h.op.agent, Observe)) && Spared(cfg, h.past, RateKey(h.op.agent, Action))
    ensures h.verdict == Rule(cfg, h.past, h.op)
  {
    var a := h.op.agent;
    KilledTracks(cfg, h.past, a);
    BreakerTracks(cfg, h.past, a);
    if a in cfg.limits { RateFollows(cfg, h.past, start, a, h.op.category, h.op.now); }
    LoopWindow(cfg, h.past, start, h.op.loopKey, h.op.now);
    Decided(cfg, h.past, h.op);
  }

  /** Stage by stage. */
  lemma Decided(cfg: Config, past: History, op: Op)
    requires op.Check? && (op.agent in End(past).killed <==> Killed(past, op.agent))
    requires op.agent in End(past).frozen <==> Tripped(cfg, past, op.agent)
    requires op.agent in cfg.limits ==>
               RateDenial(End(past).rate, op.agent, op.category, cfg.limits[op.agent], op.now)
               == if HourUsedUp(cfg, past, op.agent, op.category, op.now) then Some(HourLimit)
                  else if DayUsedUp(cfg, past, op.agent, op.now) then Some(DayLimit) else None
    requires |Alive(Get(End(past).loops, op.loopKey), op.now - cfg.window)|
             == AttemptsOn(past, op.loopKey, op.now - cfg.window, op.now)
    ensures CheckCall(cfg, End(past), op).1 == Rule(cfg, past, op)
  {
    LoopDecision(cfg, End(past).loops, op, AttemptsOn(past, op.loopKey, op.now - cfg.window, op.now));
  }

  // ---- Loop keys ----

  /** Keys are the three names joined by "|": calls of agents and tools without one in their names share a key
      only if they share all three names. */
  lemma LoopKeysDiffer(a: string, t: string, g: string, b: string, u: string, k: string)
    requires '|' !in a && '|' !in t && '|' !in b && '|' !in u
    ensures LoopKeyOf(a, t, g) == LoopKeyOf(b, u, k) <==> a == b && t == u && g == k
  {
    if LoopKeyOf(a, t, g) == LoopKeyOf(b, u, k) {
      assert LoopKeyOf(a, t, g) == a + (['|'] + (t + (['|'] + g)));
      assert LoopKeyOf(b, u, k) == b + (['|'] + (u + (['|'] + k)));
      SplitAt(a, t + (['|'] + g), b, u + (['|'] + k));
      SplitAt(t, g, u, k);
    }
  }

  lemma SplitAt(a: string, x: string, b: string, y: string)
    requires '|' !in a && '|' !in b && a + (['|'] + x) == b + (['|'] + y)
    ensures a == b && x == y
  {
    var s := a + (['|'] + x);
    FirstBar(a, x);
    FirstBar(b, y);
    assert |a| == |b|;
    assert a == s[..|a|] && b == s[..|b|];
    assert x == s[|a| + 1..] && y == s[|b| + 1..];
  }

  lemma FirstBar(a: string, x: string)
    requires '|' !in a
    ensures var s := a + (['|'] + x); s[|a|] == '|' && forall i | 0 <= i < |a| :: s[i] != '|'
  {
  }

  /** With one in a name, different calls can share a key, and each counts against the other. */
  lemma LoopKeysCollide()
    ensures LoopKeyOf("a|b", "c", "g") == LoopKeyOf("a", "b|c", "g")
  {
  }

  ghost predicate PlainNames(h: History) {
    h.Later? ==> PlainNames(h.past) && (h.op.Check? ==> '|' !in h.op.agent && '|' !in h.op.tool)
  }

  /** Then what is filed under a key is exactly the allowed attempts with that agent, tool and target. */
  lemma {:induction false} AttemptsExact(h: History, agent: string, tool: string, target: string, lo: int, hi: int)
    requires Filed(h) && PlainNames(h) && '|' !in agent && '|' !in tool && target != ""
    ensures AttemptsOn(h, LoopKeyOf(agent, tool, target), lo, hi) == AttemptsIn(h, agent, tool, target, lo, hi)
  {
    if h.Later? {
      AttemptsExact(h.past, agent, tool, target, lo, hi);
      if h.op.Check? {
        LoopKeysDiffer(agent, tool, target, h.op.agent, h.op.tool, h.op.target);
      }
    }
  }
}
