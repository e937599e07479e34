// internal/governance/engine.go: the engine and its three trackers as objects that update
// their maps in place, each method proved against the state functions.
module GovernanceEngine {
  import opened Common
  import opened SlidingWindow
  import opened Governance

  /** Keeps the times after the cutoff, as the in-place compaction loops do. */
  method Compact(ts: seq<int>, cutoff: int) returns (alive: seq<int>)
    ensures alive == Alive(ts, cutoff)
  {
    alive := [];
    for i := 0 to |ts|
      invariant alive == AliveIn(ts, cutoff, i)
    {
      if ts[i] > cutoff {
        alive := alive + [ts[i]];
      }
    }
  }

  /** A bucket's latest time, the zero time if it is empty. */
  function Latest(ts: seq<int>): int {
    LatestOf(ts, |ts|)
  }

  function LatestOf(ts: seq<int>, n: nat): (t: int)
    requires n <= |ts|
    ensures t >= 0 && forall i | 0 <= i < n :: ts[i] <= t
    ensures t == 0 || exists i | 0 <= i < n :: ts[i] == t
  {
    if n == 0 then 0
    else
      var t := LatestOf(ts, n - 1);
      if ts[n - 1] > t then ts[n - 1] else t
  }

  method ComputeLatest(ts: seq<int>) returns (latest: int)
    ensures latest == Latest(ts)
  {
    latest := 0;
    for i := 0 to |ts|
      invariant latest == LatestOf(ts, i)
    {
      if ts[i] > latest {
        latest := ts[i];
      }
    }
  }

  /** Nothing kept was last used before something evicted. */
  ghost predicate OldestOf(m: map<RateKey, seq<int>>, victims: set<RateKey>) {
    && victims <= m.Keys
    && forall v, k | v in victims && k in m && k !in victims :: Latest(m[v]) <= Latest(m[k])
  }

  datatype Entry = Entry(key: RateKey, latest: int)

  // ---- Selecting the oldest buckets ----

  /** The entries list every bucket once, with its latest time. */
  ghost predicate Lists(entries: seq<Entry>, m: map<RateKey, seq<int>>) {
    && (forall i, j | 0 <= i < j < |entries| :: entries[i].key != entries[j].key)
    && (forall i | 0 <= i < |entries| :: entries[i].key in m && entries[i].latest == Latest(m[entries[i].key]))
    && (forall k | k in m :: Entry(k, Latest(m[k])) in entries)
  }

  lemma SwapLists(entries: seq<Entry>, m: map<RateKey, seq<int>>, i: nat, j: nat)
    requires Lists(entries, m) && i <= j < |entries|
    ensures Lists(entries[i := entries[j]][j := entries[i]], m)
  {
    var after := entries[i := entries[j]][j := entries[i]];
    forall k | k in m
      ensures Entry(k, Latest(m[k])) in after
    {
      var p :| 0 <= p < |entries| && entries[p] == Entry(k, Latest(m[k]));
      assert after[if p == i then j else if p == j then i else p] == entries[p];
    }
  }

  method ListEntries(m: map<RateKey, seq<int>>) returns (a: array<Entry>)
    ensures fresh(a) && Lists(a[..], m) && a.Length == |m|
  {
    var list: seq<Entry> := [];
    var todo := m.Keys;
    while todo != {}
      invariant todo <= m.Keys && |list| + |todo| == |m.Keys|
      invariant forall i, j | 0 <= i < j < |list| :: list[i].key != list[j].key
      invariant forall i | 0 <= i < |list| ::
        list[i].key in m && list[i].key !in todo && list[i].latest == Latest(m[list[i].key])
      invariant forall k | k in m && k !in todo :: Entry(k, Latest(m[k])) in list
      decreases |todo|
    {
      var k :| k in todo;
      var latest := ComputeLatest(m[k]);
      list := list + [Entry(k, latest)];
      todo := todo - {k};
    }
    a := new Entry[|list|](i requires 0 <= i < |list| => list[i]);
    assert a[..] == list;
  }

  /** Index of an oldest entry from i on. */
  method FindOldest(a: array<Entry>, i: nat) returns (oldest: nat)
    requires i < a.Length
    ensures i <= oldest < a.Length
    ensures forall j | i <= j < a.Length :: a[oldest].latest <= a[j].latest
  {
    oldest := i;
    for j := i + 1 to a.Length
      invariant i <= oldest < a.Length
      invariant forall k | i <= k < j :: a[oldest].latest <= a[k].latest
    {
      if a[j].latest < a[oldest].latest {
        oldest := j;
      }
    }
  }

  ghost function KeySet(entries: seq<Entry>): set<RateKey> {
    set i | 0 <= i < |entries| :: entries[i].key
  }

  /** The first n entries are no younger than the rest. */
  ghost predicate Selected(entries: seq<Entry>, n: nat) {
    forall p, q | 0 <= p < n <= q < |entries| :: entries[p].latest <= entries[q].latest
  }

  lemma InKeySet(entries: seq<Entry>, n: nat, p: nat)
    requires p < n <= |entries|
    ensures entries[p].key in KeySet(entries[..n])
  {
    assert entries[..n][p] == entries[p];
  }

  /** Moving the oldest of the rest to the front of the rest selects one more. */
  lemma SelectOne(entries: seq<Entry>, i: nat, oldest: nat, after: seq<Entry>)
    requires i <= oldest < |entries| && Selected(entries, i)
    requires forall j | i <= j < |entries| :: entries[oldest].latest <= entries[j].latest
    requires after == entries[i := entries[oldest]][oldest := entries[i]]
    ensures Selected(after, i + 1)
  {
    forall p, q | 0 <= p < i + 1 <= q < |after|
      ensures after[p].latest <= after[q].latest
    {
      var q' := if q == oldest then i else q;
      assert after[q] == entries[q'];
    }
  }

  lemma KeySetGrows(before: seq<Entry>, after: seq<Entry>, i: nat, m: map<RateKey, seq<int>>)
    requires i < |after| == |before| && before[..i] == after[..i] && Lists(after, m)
    ensures KeySet(after[..i + 1]) == KeySet(before[..i]) + {after[i].key}
    ensures after[i].key !in KeySet(before[..i])
  {
    InKeySet(after, i + 1, i);
    forall k | k in KeySet(after[..i])
      ensures k in KeySet(after[..i + 1]) && k != after[i].key
    {
      var p :| 0 <= p < i && after[..i][p].key == k;
      InKeySet(after, i + 1, p);
    }
  }

  lemma OldestSelected(entries: seq<Entry>, n: nat, m: map<RateKey, seq<int>>)
    requires n <= |entries| && Lists(entries, m) && Selected(entries, n)
    ensures OldestOf(m, KeySet(entries[..n]))
  {
    var victims := KeySet(entries[..n]);
    forall p | 0 <= p < n
      ensures entries[p].key in victims
    {
      InKeySet(entries, n, p);
    }
    forall v, k | v in victims && k in m && k !in victims
      ensures Latest(m[v]) <= Latest(m[k])
    {
      var p :| 0 <= p < n && entries[..n][p].key == v;
      var q :| 0 <= q < |entries| && entries[q] == Entry(k, Latest(m[k]));
      assert entries[p].latest <= entries[q].latest;
    }
  }

  method SelectNext(a: array<Entry>, i: nat, ghost m: map<RateKey, seq<int>>)
    requires i < a.Length && Lists(a[..], m) && Selected(a[..], i)
    modifies a
    ensures Lists(a[..], m) && Selected(a[..], i + 1) && a[..][..i] == old(a[..])[..i]
  {
    var oldest := FindOldest(a, i);
    ghost var before := a[..];
    a[i], a[oldest] := a[oldest], a[i];
    ghost var after := a[..];
    assert after == before[i := before[oldest]][oldest := before[i]];
    SwapLists(before, m, i, oldest);
    SelectOne(before, i, oldest, after);
  }

  lemma RemoveOne(m: map<RateKey, seq<int>>, victims: set<RateKey>, k: RateKey)
    requires k !in victims
    ensures m - victims - {k} == m - (victims + {k})
    ensures |victims + {k}| == |victims| + 1
  {
  }

  /** evictOldestBucketsLocked: selection stops after a tenth of the buckets, at least one. */
  method EvictOldest(m: map<RateKey, seq<int>>) returns (kept: map<RateKey, seq<int>>, ghost victims: set<RateKey>)
    requires m != map[]
    ensures kept == m - victims && OldestOf(m, victims)
    ensures |victims| == if |m| / 10 < 1 then 1 else |m| / 10
  {
    var toRemove := |m| / 10;
    if toRemove < 1 {
      toRemove := 1;
    }
    var a := ListEntries(m);
    kept, victims := m, {};
    for i := 0 to toRemove
      invariant Lists(a[..], m) && Selected(a[..], i)
      invariant victims == KeySet(a[..][..i]) && |victims| == i && kept == m - victims
    {
      ghost var before := a[..];
      SelectNext(a, i, m);
      KeySetGrows(before, a[..], i, m);
      RemoveOne(m, victims, a[i].key);
      kept := kept - {a[i].key};
      victims := victims + {a[i].key};
    }
    OldestSelected(a[..], toRemove, m);
  }

  // ---- The trackers ----

  class InMemoryRateLimiter {
    var buckets: map<RateKey, seq<int>>

    constructor ()
      ensures buckets == map[]
    {
      buckets := map[];
    }

    method CheckLimit(agent: string, category: Category, limits: RateLimit, now: int) returns (denial: Option<Domain>)
      modifies this
      ensures buckets == CompactRate(old(buckets), RateKey(agent, category), now)
      ensures denial == RateDenial(old(buckets), agent, category, limits, now)
    {
      var key := RateKey(agent, category);
      var timestamps := Get(buckets, key);
      var alive := Compact(timestamps, now - DAY);
      var hour := Compact(timestamps, now - HOUR);
      buckets := buckets[key := alive];
      var hourLimit := HourlyLimit(limits, category);
      if hourLimit > 0 && |hour| >= hourLimit {
        return Some(HourLimit);
      }
      if limits.perDay > 0 {
        var observed := Compact(Get(buckets, RateKey(agent, Observe)), now - DAY);
        var acted := Compact(Get(buckets, RateKey(agent, Action)), now - DAY);
        if |observed| + |acted| >= limits.perDay {
          return Some(DayLimit);
        }
      }
      return None;
    }

    method Record(agent: string, category: Category, t: int) returns (ghost victims: set<RateKey>)
      modifies this
      ensures buckets == RecordAction(old(buckets), RateKey(agent, category), t, victims)
      ensures Crowded(old(buckets), RateKey(agent, category), t) ==>
                OldestOf(Added(old(buckets), RateKey(agent, category), t), victims)
    {
      var key := RateKey(agent, category);
      buckets := buckets[key := Get(buckets, key) + [t]];
      victims := {};
      if |buckets| > MAX_RATE_BUCKETS {
        buckets, victims := EvictOldest(buckets);
      }
    }
  }

  class InMemoryLoopDetector {
    var attempts: map<string, seq<int>>

    constructor ()
      ensures attempts == map[]
    {
      attempts := map[];
    }

    method CheckLoop(key: string, maxAttempts: int, window: int, now: int) returns (denied: bool)
      modifies this
      ensures attempts == CompactLoops(old(attempts), key, now - window)
      ensures denied <==> |Alive(Get(old(attempts), key), now - window)| >= maxAttempts
    {
      var alive := Compact(Get(attempts, key), now - window);
      attempts := attempts[key := alive];
      denied := |alive| >= maxAttempts;
    }

    method Record(key: string, t: int)
      modifies this
      ensures attempts == RecordAttempt(old(attempts), key, t)
    {
      attempts := attempts[key := Get(attempts, key) + [t]];
      if |attempts| > MAX_LOOP_BUCKETS {
        attempts := PruneStale(attempts, t - DAY);
      }
    }
  }

  /** Drops stale times everywhere, and every key left with none. */
  method PruneStale(all: map<string, seq<int>>, cutoff: int) returns (kept: map<string, seq<int>>)
    ensures kept == map k | k in all && Alive(all[k], cutoff) != [] :: Alive(all[k], cutoff)
  {
    kept := map[];
    var todo := all.Keys;
    while todo != {}
      invariant todo <= all.Keys
      invariant kept == map k | k in all && k !in todo && Alive(all[k], cutoff) != [] :: Alive(all[k], cutoff)
      decreases |todo|
    {
      var k :| k in todo;
      var alive := Compact(all[k], cutoff);
      if |alive| != 0 {
        kept := kept[k := alive];
      }
      todo := todo - {k};
    }
  }

  class InMemoryCircuitBreaker {
    var failures: map<string, int>
    var frozen: set<string>

    constructor ()
      ensures failures == map[] && frozen == {}
    {
      failures, frozen := map[], {};
    }

    method RecordSuccess(agent: string)
      modifies this
      ensures failures == old(failures)[agent := 0] && frozen == old(frozen)
    {
      failures := failures[agent := 0];
    }

    method RecordFailure(agent: string) returns (count: int)
      modifies this
      ensures count == (if agent in old(failures) then old(failures)[agent] else 0) + 1
      ensures failures == old(failures)[agent := count] && frozen == old(frozen)
    {
      count := (if agent in failures then failures[agent] else 0) + 1;
      failures := failures[agent := count];
    }

    method Freeze(agent: string)
      modifies this
      ensures frozen == old(frozen) + {agent} && failures == old(failures)
    {
      frozen := frozen + {agent};
    }
  }

  // ---- The engine ----

  class Engine {
    const cfg: Config
    const limiter: InMemoryRateLimiter
    const detector: InMemoryLoopDetector
    const breaker: InMemoryCircuitBreaker
    var killed: set<string>

    constructor (cfg: Config)
      ensures this.cfg == cfg && View() == START
      ensures fresh(limiter) && fresh(detector) && fresh(breaker)
    {
      this.cfg := cfg;
      limiter := new InMemoryRateLimiter();
      detector := new InMemoryLoopDetector();
      breaker := new InMemoryCircuitBreaker();
      killed := {};
    }

    ghost function View(): State
      reads this, limiter, detector, breaker
    {
      State(limiter.buckets, detector.attempts, breaker.failures, breaker.frozen, killed)
    }

    method CheckRate(ghost op: Op, agent: string, category: Category, now: int) returns (denial: Option<Domain>)
      requires op.Check? && op.agent == agent && op.category == category && op.now == now
      modifies limiter
      ensures limiter.buckets == AfterRateCheck(cfg, old(limiter.buckets), op)
      ensures denial == if agent in cfg.limits
                        then RateDenial(old(limiter.buckets), agent, category, cfg.limits[agent], now) else None
    {
      denial := None;
      if agent in cfg.limits {
        denial := limiter.CheckLimit(agent, category, cfg.limits[agent], now);
      }
    }

    method CheckLoops(ghost op: Op, target: string, key: string, now: int) returns (denied: bool)
      requires op.Check? && op.target == target && op.loopKey == key && op.now == now
      modifies detector
      ensures detector.attempts == AfterLoopCheck(cfg, old(detector.attempts), op)
      ensures denied <==> LoopDenies(cfg, old(detector.attempts), op)
    {
      denied := false;
      if target != "" && cfg.loopMax > 0 {
        denied := detector.CheckLoop(key, cfg.loopMax, cfg.window, now);
      }
    }

    method CheckBehaviorOf(agent: string, tool: string, category: Category, target: string, now: int, key: string)
      returns (verdict: Verdict, ghost victims: set<RateKey>)
      modifies limiter, detector
      ensures var op := Check(agent, tool, category, target, now, key, victims);
              (View(), verdict) == CheckBehavior(cfg, old(View()), op)
    {
      victims := {};
      if agent in breaker.frozen { return Deny(Frozen), victims; }
      ghost var op := Check(agent, tool, category, target, now, key, victims);
      var denial := CheckRate(op, agent, category, now);
      if denial.Some? { return Deny(denial.value), victims; }
      var denied := CheckLoops(op, target, key, now);
      if denied { return Deny(Loop), victims; }
      victims := limiter.Record(agent, category, now);
      if target != "" {
        detector.Record(key, now);
      }
      return Allow, victims;
    }

    /** Check: kill switch, identity, segmentation, behaviour, in that order. */
    method CheckTool(agent: string, tool: string, category: Category, target: string, now: int)
      returns (verdict: Verdict, ghost victims: set<RateKey>)
      modifies limiter, detector
      ensures var op := Check(agent, tool, category, target, now, LoopKeyOf(agent, tool, target), victims);
              (View(), verdict) == CheckCall(cfg, old(View()), op)
    {
      victims := {};
      if agent in killed { return Deny(KillSwitch), victims; }
      if agent !in cfg.agents { return Deny(Identity), victims; }
      if SegmentDenies(cfg, agent, tool) { return Deny(Segmentation), victims; }
      verdict, victims := CheckBehaviorOf(agent, tool, category, target, now, LoopKeyOf(agent, tool, target));
    }

    method RecordOutcome(agent: string, success: bool)
      modifies breaker
      ensures View() == RecordResult(cfg, old(View()), agent, success)
    {
      if success {
        breaker.RecordSuccess(agent);
      } else {
        var count := breaker.RecordFailure(agent);
        if cfg.threshold > 0 && count >= cfg.threshold {
          breaker.Freeze(agent);
        }
      }
    }
  }
}
