// internal/quota/limiter.go: the in-memory quota backend, a token bucket and a concurrency
// counter per tenant, with idle entries swept out now and then.  Times are seconds.
module Quota {
  import opened Sequences

  const IDLE_TTL: real := 3600.0   // bucketIdleTTL
  const SWEEP_EVERY: nat := 100    // limiterSweepEvery

  datatype Bucket = Bucket(tokens: real, last: real, lastAccess: real)

  datatype Backend<!K> = Backend(buckets: map<K, Bucket>, concurrent: map<K, int>, allowCount: nat)

  datatype Op<K> =
    | Allow(tenant: K, qps: int, now: real)
    | TryInc(tenant: K, max: int)
    | Dec(tenant: K)
    | Restore(counts: map<K, int>)   // WithInitialConcurrent

  function Min(x: real, y: real): real {
    if x < y then x else y
  }

  /** What the bucket holds at a later time, before the call takes its token. */
  function Level(tokens: real, last: real, qps: int, now: real): real {
    Min(tokens + Inflow(qps as real, last, now), qps as real)
  }

  function Inflow(rate: real, from: real, until: real): real {
    (until - from) * rate
  }

  /** One call on an existing bucket. */
  function Draw(b: Bucket, qps: int, now: real): (Bucket, bool) {
    var level := Level(b.tokens, b.last, qps, now);
    if level < 1.0 then (Bucket(level, now, now), false) else (Bucket(level - 1.0, now, now), true)
  }

  predicate Idle(b: Bucket, now: real) {
    b.lastAccess < now - IDLE_TTL
  }

  /** sweepLocked */
  function Sweep<K>(m: Backend<K>, now: real): Backend<K> {
    var buckets := map t | t in m.buckets && !Idle(m.buckets[t], now) :: m.buckets[t];
    var concurrent := map t | t in m.concurrent && (m.concurrent[t] > 0 || t in buckets) :: m.concurrent[t];
    Backend(buckets, concurrent, m.allowCount)
  }

  /** A missing counter reads as zero. */
  function Count<K>(concurrent: map<K, int>, t: K): int {
    if t in concurrent then concurrent[t] else 0
  }

  /** One operation; with sweeping off, the backend that never forgets anything. */
  function Step<K(==)>(m: Backend<K>, op: Op<K>, sweeping: bool): (Backend<K>, bool) {
    match op
    case Allow(t, qps, now) =>
      var n := m.(allowCount := m.allowCount + 1);
      var swept := if sweeping && n.allowCount % SWEEP_EVERY == 0 then Sweep(n, now) else n;
      var b := if t in swept.buckets then swept.buckets[t] else Bucket(qps as real, now, now);
      var (b', ok) := Draw(b, qps, now);
      (swept.(buckets := swept.buckets[t := b']), ok)
    case TryInc(t, max) =>
      if Count(m.concurrent, t) >= max then (m, false)
      else (m.(concurrent := m.concurrent[t := Count(m.concurrent, t) + 1]), true)
    case Dec(t) =>
      var n := Count(m.concurrent, t) - 1;
      (m.(concurrent := m.concurrent[t := if n < 0 then 0 else n]), true)
    case Restore(counts) => (m.(concurrent := m.concurrent + counts), true)
  }

  function Empty<K>(): Backend<K> {
    Backend(map[], map[], 0)
  }

  function State<K(==)>(ops: seq<Op<K>>, sweeping: bool): Backend<K> {
    if ops == [] then Empty() else Step(State(ops[..|ops| - 1], sweeping), ops[|ops| - 1], sweeping).0
  }

  /** The answer to the last operation of a history. */
  function Answer<K(==)>(ops: seq<Op<K>>, sweeping: bool): bool
    requires ops != []
  {
    Step(State(ops[..|ops| - 1], sweeping), ops[|ops| - 1], sweeping).1
  }

  // ---- Legal histories ----

  /** The time of the latest Allow in the history; `start` if there is none. */
  function Clock<K>(ops: seq<Op<K>>, start: real): real {
    if ops == [] then start
    else if ops[|ops| - 1].Allow? then ops[|ops| - 1].now
    else Clock(ops[..|ops| - 1], start)
  }

  /** The clock never goes back, rates are not negative, and no negative count is restored. */
  ghost predicate Legal<K(!new)>(ops: seq<Op<K>>, start: real) {
    ops != [] ==>
      && Legal(ops[..|ops| - 1], start)
      && match ops[|ops| - 1]
         case Allow(_, qps, now) => qps >= 0 && Clock(ops[..|ops| - 1], start) <= now
         case Restore(counts) => forall t | t in counts :: counts[t] >= 0
         case _ => true
  }

  // ---- Sweeping cannot be observed ----

  ghost predicate Healthy(b: Bucket, clock: real) {
    0.0 <= b.tokens && b.last == b.lastAccess <= clock
  }

  /** m is full with some long-idle buckets and zero counters missing. */
  ghost predicate Swept<K(!new)>(m: Backend<K>, full: Backend<K>, clock: real) {
    && (forall t | t in m.buckets :: t in full.buckets && m.buckets[t] == full.buckets[t])
    && (forall t | t in full.buckets :: Healthy(full.buckets[t], clock))
    && (forall t | t in full.buckets && t !in m.buckets :: Idle(full.buckets[t], clock))
    && (forall t :: Count(m.concurrent, t) == Count(full.concurrent, t) >= 0)
  }

  lemma InflowGrows(rate: real, from: real, s: real, t: real)
    requires rate >= 0.0 && s <= t
    ensures Inflow(rate, from, s) <= Inflow(rate, from, t)
    ensures Inflow(rate, s, t) >= 0.0
  {
    assert (t - s) * rate >= 0.0;
    assert (t - from) * rate == (s - from) * rate + (t - s) * rate;
  }

  lemma InflowAdds(rate: real, r: real, s: real, t: real)
    ensures Inflow(rate, r, s) + Inflow(rate, s, t) == Inflow(rate, r, t)
    ensures Inflow(rate, t, t) == 0.0 && Inflow(rate, t, t + 1.0) == rate
  {
  }

  lemma DrawHealthy(b: Bucket, qps: int, now: real)
    requires Healthy(b, now) && qps >= 0
    ensures Healthy(Draw(b, qps, now).0, now)
  {
    InflowGrows(qps as real, b.last, b.last, now);
  }

  /** A bucket idle for over an hour is full again whatever the rate, as a new one is. */
  lemma IdleIsFull(b: Bucket, qps: int, now: real)
    requires Healthy(b, now) && Idle(b, now) && qps >= 0
    ensures Draw(b, qps, now) == Draw(Bucket(qps as real, now, now), qps, now)
  {
    InflowGrows(qps as real, b.last, b.last + 1.0, now);
    InflowAdds(qps as real, now, b.last, b.last);
    InflowAdds(qps as real, now, now, now);
  }

  lemma SweepKeeps<K(!new)>(m: Backend<K>, full: Backend<K>, now: real)
    requires Swept(m, full, now)
    ensures Swept(Sweep(m, now), full, now)
  {
  }

  lemma SweptLater<K(!new)>(m: Backend<K>, full: Backend<K>, clock: real, now: real)
    requires Swept(m, full, clock) && clock <= now
    ensures Swept(m.(allowCount := m.allowCount + 1), full.(allowCount := full.allowCount + 1), now)
  {
  }

  /** The same draw on both sides, whether or not the bucket is missing on one. */
  lemma DrawsAlike<K(!new)>(m: Backend<K>, full: Backend<K>, t: K, qps: int, now: real)
    requires Swept(m, full, now) && qps >= 0
    ensures var blank := Bucket(qps as real, now, now);
            var d := Draw(if t in full.buckets then full.buckets[t] else blank, qps, now);
            && Draw(if t in m.buckets then m.buckets[t] else blank, qps, now) == d
            && Healthy(d.0, now)
  {
    if t in full.buckets {
      DrawHealthy(full.buckets[t], qps, now);
      if t !in m.buckets { IdleIsFull(full.buckets[t], qps, now); }
    } else {
      DrawHealthy(Bucket(qps as real, now, now), qps, now);
    }
  }

  lemma SweptUpdate<K(!new)>(m: Backend<K>, full: Backend<K>, now: real, t: K, b: Bucket)
    requires Swept(m, full, now) && Healthy(b, now)
    ensures Swept(m.(buckets := m.buckets[t := b]), full.(buckets := full.buckets[t := b]), now)
  {
  }

  lemma AllowKeeps<K(!new)>(m: Backend<K>, full: Backend<K>, clock: real, op: Op<K>)
    requires Swept(m, full, clock) && op.Allow? && op.qps >= 0 && clock <= op.now
    ensures Step(m, op, true).1 == Step(full, op, false).1
    ensures Swept(Step(m, op, true).0, Step(full, op, false).0, op.now)
  {
    SweptLater(m, full, clock, op.now);
    var n := m.(allowCount := m.allowCount + 1);
    var f := full.(allowCount := full.allowCount + 1);
    SweepKeeps(n, f, op.now);
    var swept := if n.allowCount % SWEEP_EVERY == 0 then Sweep(n, op.now) else n;
    DrawsAlike(swept, f, op.tenant, op.qps, op.now);
    var b := if op.tenant in f.buckets then f.buckets[op.tenant] else Bucket(op.qps as real, op.now, op.now);
    SweptUpdate(swept, f, op.now, op.tenant, Draw(b, op.qps, op.now).0);
  }

  lemma CounterKeeps<K(!new)>(m: Backend<K>, full: Backend<K>, clock: real, op: Op<K>)
    requires Swept(m, full, clock) && !op.Allow?
    requires op.Restore? ==> forall t | t in op.counts :: op.counts[t] >= 0
    ensures Step(m, op, true).1 == Step(full, op, false).1
    ensures Swept(Step(m, op, true).0, Step(full, op, false).0, clock)
  {
    var m', full' := Step(m, op, true).0, Step(full, op, false).0;
    forall t
      ensures Count(m'.concurrent, t) == Count(full'.concurrent, t) >= 0
    {
      assert Count(m.concurrent, t) == Count(full.concurrent, t) >= 0;
    }
  }

  lemma {:induction false} SweptThroughout<K(!new)>(ops: seq<Op<K>>, start: real)
    requires Legal(ops, start)
    ensures Swept(State(ops, true), State(ops, false), Clock(ops, start))
    ensures ops != [] ==> Answer(ops, true) == Answer(ops, false)
  {
    if ops != [] {
      var front, op := ops[..|ops| - 1], ops[|ops| - 1];
      SweptThroughout(front, start);
      if op.Allow? {
        AllowKeeps(State(front, true), State(front, false), Clock(front, start), op);
      } else {
        CounterKeeps(State(front, true), State(front, false), Clock(front, start), op);
      }
    }
  }

  /** For every history, every grant and concurrency decision is the one a backend that never
      sweeps would make. */
  lemma SweepUnobservable<K(!new)>(ops: seq<Op<K>>, start: real, k: nat)
    requires Legal(ops, start) && 0 < k <= |ops|
    ensures Answer(ops[..k], true) == Answer(ops[..k], false)
  {
    LegalPrefix(ops, start, k);
    SweptThroughout(ops[..k], start);
  }

  lemma {:induction false} LegalPrefix<K(!new)>(ops: seq<Op<K>>, start: real, k: nat)
    requires Legal(ops, start) && k <= |ops|
    ensures Legal(ops[..k], start)
  {
    if k < |ops| {
      LegalPrefix(ops[..|ops| - 1], start, k);
      assert ops[..|ops| - 1][..k] == ops[..k];
    } else {
      assert ops[..k] == ops;
    }
  }

  // ---- The burst bound ----

  /** Grants to the tenant with a <= time <= b. */
  function Grants<K(==)>(ops: seq<Op<K>>, sweeping: bool, tenant: K, a: real, b: real): nat {
    if ops == [] then 0
    else
      var op := ops[|ops| - 1];
      Grants(ops[..|ops| - 1], sweeping, tenant, a, b)
      + if op.Allow? && op.tenant == tenant && a <= op.now <= b && Answer(ops, sweeping) then 1 else 0
  }

  ghost predicate FixedRate<K>(ops: seq<Op<K>>, tenant: K, qps: int) {
    forall i | 0 <= i < |ops| && ops[i].Allow? && ops[i].tenant == tenant :: ops[i].qps == qps
  }

  /** The grants in the interval so far, plus what is left in the bucket, never exceed one
      full bucket plus what has flowed in since the interval began. */
  ghost predicate Paid(bucket: Bucket, grants: nat, rate: real, a: real, b: real) {
    if bucket.last < a then grants == 0
    else if bucket.last <= b then grants as real + bucket.tokens <= rate + Inflow(rate, a, bucket.last)
    else grants as real <= rate + Inflow(rate, a, b)
  }

  lemma DrawPays(bucket: Bucket, grants: nat, qps: int, a: real, b: real, now: real)
    requires qps >= 0 && a <= b && Healthy(bucket, now) && Paid(bucket, grants, qps as real, a, b)
    ensures var (after, ok) := Draw(bucket, qps, now);
            Paid(after, grants + (if a <= now <= b && ok then 1 else 0), qps as real, a, b)
  {
    var q := qps as real;
    if a <= now {
      InflowGrows(q, a, a, now);
      InflowGrows(q, a, a, b);
      InflowAdds(q, a, a, a);
      if a <= bucket.last {
        InflowAdds(q, a, bucket.last, now);
        if bucket.last <= b { InflowGrows(q, a, bucket.last, Min(now, b)); }
      }
    }
  }

  lemma NewPays(qps: int, a: real, b: real, now: real)
    requires qps >= 0 && a <= b
    ensures Paid(Bucket(qps as real, now, now), 0, qps as real, a, b)
  {
    InflowAdds(qps as real, a, a, a);
    InflowGrows(qps as real, a, a, b);
    if a <= now { InflowGrows(qps as real, a, a, now); }
  }

  ghost predicate TenantPaid<K>(full: Backend<K>, grants: nat, tenant: K, rate: real, a: real, b: real) {
    if tenant in full.buckets then Paid(full.buckets[tenant], grants, rate, a, b) else grants == 0
  }

  lemma {:induction false} PaidThroughout<K(!new)>(ops: seq<Op<K>>, start: real, tenant: K, qps: int, a: real, b: real)
    requires Legal(ops, start) && FixedRate(ops, tenant, qps) && qps >= 0 && a <= b
    ensures TenantPaid(State(ops, false), Grants(ops, false, tenant, a, b), tenant, qps as real, a, b)
  {
    if ops != [] {
      var front, op := ops[..|ops| - 1], ops[|ops| - 1];
      PaidThroughout(front, start, tenant, qps, a, b);
      if op.Allow? && op.tenant == tenant {
        SweptThroughout(front, start);
        AllowPays(State(front, false), Clock(front, start), Grants(front, false, tenant, a, b), op, a, b);
      }
    }
  }

  lemma AllowPays<K(!new)>(full: Backend<K>, clock: real, grants: nat, op: Op<K>, a: real, b: real)
    requires op.Allow? && op.qps >= 0 && a <= b && clock <= op.now
    requires forall t | t in full.buckets :: Healthy(full.buckets[t], clock)
    requires TenantPaid(full, grants, op.tenant, op.qps as real, a, b)
    ensures var (next, ok) := Step(full, op, false);
            TenantPaid(next, grants + (if a <= op.now <= b && ok then 1 else 0), op.tenant, op.qps as real, a, b)
  {
    if op.tenant in full.buckets {
      DrawPays(full.buckets[op.tenant], grants, op.qps, a, b, op.now);
    } else {
      NewPays(op.qps, a, b, op.now);
      DrawPays(Bucket(op.qps as real, op.now, op.now), grants, op.qps, a, b, op.now);
    }
  }

  lemma {:induction false} SameGrants<K(!new)>(ops: seq<Op<K>>, start: real, tenant: K, a: real, b: real)
    requires Legal(ops, start)
    ensures Grants(ops, true, tenant, a, b) == Grants(ops, false, tenant, a, b)
  {
    if ops != [] {
      SameGrants(ops[..|ops| - 1], start, tenant, a, b);
      SweptThroughout(ops, start);
    }
  }

  /** In any interval of length T a tenant gets at most qps + qps * T grants, whatever the
      other tenants do and however often its bucket is swept and made anew in between. */
  lemma BurstBound<K(!new)>(ops: seq<Op<K>>, start: real, tenant: K, qps: int, a: real, b: real)
    requires Legal(ops, start) && FixedRate(ops, tenant, qps) && qps >= 0 && a <= b
    ensures Grants(ops, true, tenant, a, b) as real <= qps as real + (b - a) * qps as real
  {
    SameGrants(ops, start, tenant, a, b);
    PaidThroughout(ops, start, tenant, qps, a, b);
    SweptThroughout(ops, start);
    var full := State(ops, false);
    InflowGrows(qps as real, a, a, b);
    InflowAdds(qps as real, a, a, a);
    if tenant in full.buckets && a <= full.buckets[tenant].last <= b {
      InflowGrows(qps as real, a, full.buckets[tenant].last, b);
    }
  }

  // ---- And no call is refused without need ----

  lemma Uncapped(k: Bucket, qps: int, a: real, now: real, grants: nat)
    requires k.tokens == qps as real + Inflow(qps as real, a, k.last) - grants as real
    requires k.tokens + Inflow(qps as real, k.last, now) <= qps as real
    ensures Level(k.tokens, k.last, qps, now) == qps as real + Inflow(qps as real, a, now) - grants as real
  {
    InflowAdds(qps as real, a, k.last, now);
  }

  function BucketFor<K>(m: Backend<K>, t: K, qps: int, now: real): Bucket {
    if t in m.buckets then m.buckets[t] else Bucket(qps as real, now, now)
  }

  lemma AllowDraws<K(!new)>(m: Backend<K>, t: K, qps: int, now: real)
    ensures var (next, ok) := Step(m, Allow(t, qps, now), false);
            var d := Draw(BucketFor(m, t, qps, now), qps, now);
            t in next.buckets && next.buckets[t] == d.0 && ok == d.1
  {
  }

  /** The moment a since which a tenant's bucket has not been full: what it holds is a full bucket, and what
      has flowed in since then, less the grants made since then. */
  lemma {:induction false} FullMoment<K(!new)>(ops: seq<Op<K>>, start: real, tenant: K, qps: int, b: real)
    returns (a: real)
    requires Legal(ops, start) && FixedRate(ops, tenant, qps) && qps >= 0 && Clock(ops, start) <= b
    requires tenant in State(ops, false).buckets
    ensures SinceFull(State(ops, false).buckets[tenant], qps, a, Grants(ops, false, tenant, a, b), b)
  {
    var front, op := ops[..|ops| - 1], ops[|ops| - 1];
    if op.Allow? && op.tenant == tenant {
      var before := 0.0;
      if tenant in State(front, false).buckets {
        before := FullMoment(front, start, tenant, qps, b);
      }
      PaidThroughout(front, start, tenant, qps, op.now, b);
      SweptThroughout(front, start);
      AllowDraws(State(front, false), tenant, qps, op.now);
      var capped := FullAfter(State(front, false), tenant, qps, before, op.now,
                              Grants(front, false, tenant, before, b), Grants(front, false, tenant, op.now, b), b);
      a := if capped then op.now else before;
    } else {
      a := FullMoment(front, start, tenant, qps, b);
    }
  }

  lemma FullAfter<K(!new)>(m: Backend<K>, t: K, qps: int, before: real, now: real, grants: nat, after: nat, b: real)
    returns (capped: bool)
    requires qps >= 0 && now <= b && TenantPaid(m, after, t, qps as real, now, b)
    requires t in m.buckets ==> SinceFull(m.buckets[t], qps, before, grants, b) && m.buckets[t].last <= now
    ensures var d := Draw(BucketFor(m, t, qps, now), qps, now);
            SinceFull(d.0, qps, if capped then now else before,
                      (if capped then after else grants) + (if d.1 then 1 else 0), b)
  {
    if t in m.buckets {
      capped := NextFull(m.buckets[t], qps, before, now, grants, after, b);
    } else {
      capped := true;
      InflowAdds(qps as real, now, now, now);
    }
  }

  ghost predicate SinceFull(k: Bucket, qps: int, a: real, grants: nat, b: real) {
    && a <= k.last <= b
    && k.tokens == qps as real + Inflow(qps as real, a, k.last) - grants as real
    && k.tokens <= qps as real
  }

  /** After one more call the moment is the same, or, if the bucket has been full since, that call's. */
  lemma NextFull(k: Bucket, qps: int, a0: real, now: real, grants: nat, after: nat, b: real) returns (capped: bool)
    requires SinceFull(k, qps, a0, grants, b) && qps >= 0 && k.last <= now <= b
    requires k.last < now ==> after == 0
    ensures var (next, ok) := Draw(k, qps, now);
            SinceFull(next, qps, if capped then now else a0,
                      (if capped then after else grants) + (if ok then 1 else 0), b)
  {
    capped := k.tokens + Inflow(qps as real, k.last, now) > qps as real;
    InflowAdds(qps as real, now, now, now);
    if capped {
      InflowAdds(qps as real, now, k.last, k.last);
    } else {
      Uncapped(k, qps, a0, now, grants);
    }
  }

  lemma CallAnswer<K(!new)>(front: seq<Op<K>>, op: Op<K>, start: real, a: real, b: real)
    requires op.Allow? && Legal(front + [op], start)
    ensures Legal(front, start) && Clock(front, start) <= op.now && op.qps >= 0
    ensures Answer(front + [op], false) == Step(State(front, false), op, false).1
    ensures Answer(front + [op], true) == Answer(front + [op], false)
    ensures Grants(front + [op], false, op.tenant, a, b)
            == Grants(front, false, op.tenant, a, b)
               + (if a <= op.now <= b && Answer(front + [op], false) then 1 else 0)
  {
    Front(front, op);
    SweptThroughout(front + [op], start);
  }

  lemma DrawRefused(k: Bucket, qps: int, a: real, grants: nat, now: real)
    requires SinceFull(k, qps, a, grants, now) && !Draw(k, qps, now).1
    ensures qps > 0 ==> Exceeds(grants, qps, a, now)
  {
    if k.tokens + Inflow(qps as real, k.last, now) <= qps as real {
      Uncapped(k, qps, a, now, grants);
    }
  }

  lemma BlankRefused(qps: int, now: real)
    requires !Draw(Bucket(qps as real, now, now), qps, now).1
    ensures qps <= 0
  {
    InflowAdds(qps as real, now, now, now);
  }

  /** One grant more would exceed qps + qps * T in the T seconds since a. */
  ghost predicate Exceeds(grants: nat, qps: int, a: real, now: real) {
    a <= now && grants as real + 1.0 > qps as real + (now - a) * qps as real
  }

  lemma NoRateExceeds(grants: nat, qps: int, now: real)
    requires qps == 0
    ensures Exceeds(grants, qps, now, now)
  {
  }

  lemma RefusedHasCause<K(!new)>(front: seq<Op<K>>, start: real, tenant: K, qps: int, now: real) returns (a: real)
    requires Legal(front, start) && FixedRate(front, tenant, qps) && qps >= 0 && Clock(front, start) <= now
    requires !Draw(BucketFor(State(front, false), tenant, qps, now), qps, now).1
    ensures Exceeds(Grants(front, false, tenant, a, now), qps, a, now)
  {
    if qps == 0 {
      a := now;
      NoRateExceeds(Grants(front, false, tenant, a, now), qps, now);
    } else if tenant in State(front, false).buckets {
      a := FullMoment(front, start, tenant, qps, now);
      DrawRefused(State(front, false).buckets[tenant], qps, a, Grants(front, false, tenant, a, now), now);
    } else {
      BlankRefused(qps, now);
    }
  }

  /** The exact decision, from the grants alone: a call is refused if and only if granting it would exceed
      qps + qps * T over the last T seconds, for some T. */
  lemma GrantExact<K(!new)>(front: seq<Op<K>>, start: real, tenant: K, qps: int, now: real)
    requires Legal(front + [Allow(tenant, qps, now)], start) && FixedRate(front, tenant, qps)
    ensures !Answer(front + [Allow(tenant, qps, now)], true) <==>
            exists a: real :: Exceeds(Grants(front, true, tenant, a, now), qps, a, now)
  {
    if Answer(front + [Allow(tenant, qps, now)], true) {
      forall a: real
        ensures !Exceeds(Grants(front, true, tenant, a, now), qps, a, now)
      {
        if a <= now { GrantedFits(front, start, tenant, qps, now, a); }
      }
    } else {
      CallAnswer(front, Allow(tenant, qps, now), start, now, now);
      AllowDraws(State(front, false), tenant, qps, now);
      var a := RefusedHasCause(front, start, tenant, qps, now);
      SameGrants(front, start, tenant, a, now);
    }
  }

  lemma GrantedFits<K(!new)>(front: seq<Op<K>>, start: real, tenant: K, qps: int, now: real, a: real)
    requires Legal(front + [Allow(tenant, qps, now)], start) && FixedRate(front, tenant, qps) && a <= now
    requires Answer(front + [Allow(tenant, qps, now)], true)
    ensures !Exceeds(Grants(front, true, tenant, a, now), qps, a, now)
  {
    var op := Allow(tenant, qps, now);
    CallAnswer(front, op, start, a, now);
    SameGrants(front, start, tenant, a, now);
    SameGrants(front + [op], start, tenant, a, now);
    assert FixedRate(front + [op], tenant, qps);
    BurstBound(front + [op], start, tenant, qps, a, now);
  }

  // ---- Concurrency slots ----

  /** TryInc calls of a tenant that were granted. */
  function SlotsGranted<K(==)>(ops: seq<Op<K>>, sweeping: bool, t: K): nat {
    if ops == [] then 0
    else
      var op := ops[|ops| - 1];
      SlotsGranted(ops[..|ops| - 1], sweeping, t)
      + if op.TryInc? && op.tenant == t && Answer(ops, sweeping) then 1 else 0
  }

  /** Dec calls of a tenant made while it held a slot; the others release nothing. */
  function SlotsReleased<K(==)>(ops: seq<Op<K>>, sweeping: bool, t: K): nat {
    if ops == [] then 0
    else
      var front, op := ops[..|ops| - 1], ops[|ops| - 1];
      var before := SlotsReleased(front, sweeping, t);
      before + if op.Dec? && op.tenant == t && SlotsGranted(front, sweeping, t) > before then 1 else 0
  }

  ghost predicate NoRestore<K>(ops: seq<Op<K>>) {
    forall i | 0 <= i < |ops| :: !ops[i].Restore?
  }

  lemma {:induction false} CountIsHeld<K(!new)>(ops: seq<Op<K>>, t: K)
    requires NoRestore(ops)
    ensures Count(State(ops, false).concurrent, t) == SlotsGranted(ops, false, t) - SlotsReleased(ops, false, t) >= 0
  {
    if ops != [] {
      var front, op := ops[..|ops| - 1], ops[|ops| - 1];
      assert !op.Restore?;
      CountIsHeld(front, t);
    }
  }

  lemma {:induction false} SameSlots<K(!new)>(ops: seq<Op<K>>, start: real, t: K)
    requires Legal(ops, start)
    ensures SlotsGranted(ops, true, t) == SlotsGranted(ops, false, t)
    ensures SlotsReleased(ops, true, t) == SlotsReleased(ops, false, t)
  {
    if ops != [] {
      SameSlots(ops[..|ops| - 1], start, t);
      SweptThroughout(ops, start);
    }
  }

  /** The exact decision, from the calls alone: a slot is granted if and only if those granted to the tenant
      before, less those it has released, are fewer than the limit. */
  lemma SlotsExact<K(!new)>(front: seq<Op<K>>, start: real, t: K, max: int)
    requires Legal(front + [TryInc(t, max)], start) && NoRestore(front)
    ensures Answer(front + [TryInc(t, max)], true) <==>
            SlotsGranted(front, true, t) - SlotsReleased(front, true, t) < max
  {
    Front(front, TryInc(t, max));
    SweptThroughout(front + [TryInc(t, max)], start);
    SameSlots(front, start, t);
    CountIsHeld(front, t);
  }

  // ---- Where sweeping does show ----

  /** A sweep leaves a tenant's counter reading as it was exactly unless the counter is
      negative and the tenant has no bucket that survives the sweep. */
  lemma SweepCountExact<K>(m: Backend<K>, now: real, t: K)
    ensures Count(Sweep(m, now).concurrent, t) == Count(m.concurrent, t)
      <==> !(Count(m.concurrent, t) < 0 && (t !in m.buckets || Idle(m.buckets[t], now)))
  {
  }

  /** n calls of one tenant at one time. */
  function Calls<K>(tenant: K, now: real, n: nat): seq<Op<K>> {
    if n == 0 then [] else Calls(tenant, now, n - 1) + [Allow(tenant, 1, now)]
  }

  ghost predicate Agrees<K(!new)>(ops: seq<Op<K>>) {
    ops != [] ==> Answer(ops, true) == Answer(ops, false)
  }

  ghost predicate NonNegative<K(!new)>(counts: map<K, int>) {
    forall t | t in counts :: counts[t] >= 0
  }

  lemma StateOf<K(!new)>(front: seq<Op<K>>, op: Op<K>, sweeping: bool)
    ensures State(front + [op], sweeping) == Step(State(front, sweeping), op, sweeping).0
    ensures Answer(front + [op], sweeping) == Step(State(front, sweeping), op, sweeping).1
  {
    Front(front, op);
  }

  /** A call before the sweep is due. */
  lemma EarlyCall<K(!new)>(m: Backend<K>, t: K, now: real, sweeping: bool)
    requires m.allowCount + 1 < SWEEP_EVERY && m.buckets.Keys <= {t}
    ensures AfterCalls(Step(m, Allow(t, 1, now), sweeping).0, m.concurrent, t, now, m.allowCount + 1)
  {
  }

  /** After n calls of one tenant at one time: its bucket alone, and these counters. */
  ghost predicate AfterCalls<K(!new)>(m: Backend<K>, counts: map<K, int>, t: K, now: real, n: nat) {
    && m.concurrent == counts && m.allowCount == n
    && m.buckets.Keys == (if n == 0 then {} else {t})
    && (n > 0 ==> m.buckets[t].lastAccess == now)
  }

  lemma AfterRestore<K(!new)>(counts: map<K, int>, t: K, now: real, sweeping: bool)
    ensures AfterCalls(State([Restore(counts)], sweeping), counts, t, now, 0)
  {
    StateOf<K>([], Restore(counts), sweeping);
    Unit<Op<K>>([Restore(counts)]);
  }

  lemma {:induction false} BeforeSweep<K(!new)>(counts: map<K, int>, t: K, now: real, n: nat, sweeping: bool)
    requires n < SWEEP_EVERY
    ensures AfterCalls(State([Restore(counts)] + Calls(t, now, n), sweeping), counts, t, now, n)
  {
    if n == 0 {
      Unit<Op<K>>([Restore(counts)]);
      AfterRestore(counts, t, now, sweeping);
    } else {
      var front := [Restore(counts)] + Calls(t, now, n - 1);
      BeforeSweep(counts, t, now, n - 1, sweeping);
      Assoc([Restore(counts)], Calls(t, now, n - 1), [Allow(t, 1, now)]);
      StateOf(front, Allow(t, 1, now), sweeping);
      EarlyCall(State(front, sweeping), t, now, sweeping);
    }
  }

  /** The hundredth call, over an hour later, and two requests for the only slot. */
  function Witness<K>(t: K, start: real): seq<Op<K>> {
    Calls(t, start, SWEEP_EVERY - 1) + [Allow(t, 1, start + IDLE_TTL + 1.0)] + [TryInc(t, 1)] + [TryInc(t, 1)]
  }

  lemma {:induction false} CallsLegal<K(!new)>(t: K, start: real, n: nat)
    ensures Legal(Calls(t, start, n), start) && Clock(Calls(t, start, n), start) == start
  {
    if n > 0 {
      CallsLegal(t, start, n - 1);
      Front(Calls(t, start, n - 1), Allow(t, 1, start));
    }
  }

  lemma LegalMore<K(!new)>(ops: seq<Op<K>>, op: Op<K>, start: real)
    requires Legal(ops, start)
    requires op.TryInc? || (op.Allow? && op.qps >= 0 && Clock(ops, start) <= op.now)
    ensures Legal(ops + [op], start)
  {
    Front(ops, op);
  }

  lemma WitnessLegal<K(!new)>(t: K, start: real)
    ensures Legal(Witness(t, start), start)
  {
    CallsLegal(t, start, SWEEP_EVERY - 1);
    var late := Calls(t, start, SWEEP_EVERY - 1) + [Allow(t, 1, start + IDLE_TTL + 1.0)];
    LegalMore(Calls(t, start, SWEEP_EVERY - 1), Allow(t, 1, start + IDLE_TTL + 1.0), start);
    LegalMore(late, TryInc(t, 1), start);
    LegalMore(late + [TryInc(t, 1)], TryInc(t, 1), start);
  }

  /** The call that sweeps: the tenant's bucket is idle, so its counter goes if it is not positive. */
  lemma SweepingCall<K(!new)>(m: Backend<K>, t: K, start: real, sweeping: bool)
    requires m.allowCount == SWEEP_EVERY - 1 && m.buckets.Keys == {t} && m.buckets[t].lastAccess == start
    ensures var after := Step(m, Allow(t, 1, start + IDLE_TTL + 1.0), sweeping).0;
            Count(after.concurrent, t)
            == (if sweeping && Count(m.concurrent, t) <= 0 then 0 else Count(m.concurrent, t))
  {
  }

  lemma TwoSlots<K(!new)>(front: seq<Op<K>>, t: K, sweeping: bool)
    ensures Answer(front + [TryInc(t, 1)] + [TryInc(t, 1)], sweeping)
            <==> Count(State(front, sweeping).concurrent, t) < 0
  {
    StateOf(front, TryInc(t, 1), sweeping);
    StateOf(front + [TryInc(t, 1)], TryInc(t, 1), sweeping);
  }

  /** A restored negative count shows: a sweep forgets it, and the second request for the only slot is
      then refused where the unswept counter would still grant it. */
  lemma NegativeCountShows<K(!new)>(counts: map<K, int>, t: K, start: real)
    requires t in counts && counts[t] < 0
    ensures Legal(Witness(t, start), start) && !Agrees([Restore(counts)] + Witness(t, start))
  {
    WitnessLegal(t, start);
    var calls, late := Calls(t, start, SWEEP_EVERY - 1), Allow(t, 1, start + IDLE_TTL + 1.0);
    var front := [Restore(counts)] + calls + [late];
    assert [Restore(counts)] + Witness(t, start) == front + [TryInc(t, 1)] + [TryInc(t, 1)];
    CountAtWitness(counts, t, start, true);
    CountAtWitness(counts, t, start, false);
    TwoSlots(front, t, true);
    TwoSlots(front, t, false);
  }

  lemma CountAtWitness<K(!new)>(counts: map<K, int>, t: K, start: real, sweeping: bool)
    requires t in counts && counts[t] < 0
    ensures var front := [Restore(counts)] + Calls(t, start, SWEEP_EVERY - 1) + [Allow(t, 1, start + IDLE_TTL + 1.0)];
            Count(State(front, sweeping).concurrent, t) == (if sweeping then 0 else counts[t])
  {
    var before := [Restore(counts)] + Calls(t, start, SWEEP_EVERY - 1);
    BeforeSweep(counts, t, start, SWEEP_EVERY - 1, sweeping);
    StateOf(before, Allow(t, 1, start + IDLE_TTL + 1.0), sweeping);
    SweepingCall(State(before, sweeping), t, start, sweeping);
  }

  lemma {:induction false} LegalAfterRestore<K(!new)>(counts: map<K, int>, rest: seq<Op<K>>, start: real)
    requires NonNegative(counts) && Legal(rest, start)
    ensures Legal([Restore(counts)] + rest, start)
    ensures Clock([Restore(counts)] + rest, start) == Clock(rest, start)
  {
    if rest == [] {
      Unit<Op<K>>([Restore(counts)]);
      assert [Restore(counts)][..0] == [];
    } else {
      var front, op := rest[..|rest| - 1], rest[|rest| - 1];
      LegalAfterRestore(counts, front, start);
      assert [Restore(counts)] + rest == [Restore(counts)] + front + [op];
      Front([Restore(counts)] + front, op);
    }
  }

  /** Restored counters leave sweeping unobservable, whatever legal history follows, exactly when none
      of them is negative. */
  lemma RestoreExact<K(!new)>(counts: map<K, int>, start: real)
    ensures (forall rest: seq<Op<K>> | Legal(rest, start) :: Agrees([Restore(counts)] + rest)) <==> NonNegative(counts)
  {
    if NonNegative(counts) {
      forall rest: seq<Op<K>> | Legal(rest, start)
        ensures Agrees([Restore(counts)] + rest)
      {
        var ops := [Restore(counts)] + rest;
        LegalAfterRestore(counts, rest, start);
        SweepUnobservable(ops, start, |ops|);
        assert ops[..|ops|] == ops;
      }
    } else {
      var t :| t in counts && counts[t] < 0;
      NegativeCountShows(counts, t, start);
    }
  }

  // ---- The backend object ----

  class MemoryBackend<K(==)> {
    var buckets: map<K, Bucket>
    var concurrent: map<K, int>
    var allowCount: nat

    ghost function View(): Backend<K>
      reads this
    {
      Backend(buckets, concurrent, allowCount)
    }

    constructor ()
      ensures View() == Empty()
    {
      buckets, concurrent, allowCount := map[], map[], 0;
    }

    method AllowQPS(tenant: K, qps: int, now: real) returns (ok: bool)
      modifies this
      ensures (View(), ok) == Step(old(View()), Allow(tenant, qps, now), true)
    {
      allowCount := allowCount + 1;
      if allowCount % SWEEP_EVERY == 0 {
        SweepLocked(now);
      }
      var b := if tenant in buckets then buckets[tenant] else Bucket(qps as real, now, now);
      b, ok := DrawToken(b, qps, now);
      buckets := buckets[tenant := b];
    }

    static method DrawToken(b: Bucket, qps: int, now: real) returns (after: Bucket, ok: bool)
      ensures (after, ok) == Draw(b, qps, now)
    {
      var tokens := b.tokens + Inflow(qps as real, b.last, now);
      if tokens > qps as real {
        tokens := qps as real;
      }
      if tokens < 1.0 {
        return Bucket(tokens, now, now), false;
      }
      return Bucket(tokens - 1.0, now, now), true;
    }

    /** Go ranges over a map in no fixed order; so does this. */
    method SweepLocked(now: real)
      modifies this
      ensures View() == Sweep(old(View()), now)
    {
      var todo := buckets.Keys;
      ghost var all := buckets;
      while todo != {}
        invariant concurrent == old(concurrent) && allowCount == old(allowCount)
        invariant todo <= all.Keys
        invariant buckets == map t | t in all && (t in todo || !Idle(all[t], now)) :: all[t]
        decreases |todo|
      {
        var t :| t in todo;
        if Idle(buckets[t], now) {
          buckets := buckets - {t};
        }
        todo := todo - {t};
      }
      todo := concurrent.Keys;
      ghost var counts := concurrent;
      while todo != {}
        invariant buckets == Sweep(old(View()), now).buckets && allowCount == old(allowCount)
        invariant todo <= counts.Keys
        invariant concurrent == map t | t in counts && (t in todo || counts[t] > 0 || t in buckets) :: counts[t]
        decreases |todo|
      {
        var t :| t in todo;
        if concurrent[t] <= 0 && t !in buckets {
          concurrent := concurrent - {t};
        }
        todo := todo - {t};
      }
    }

    method TryIncConcurrent(tenant: K, max: int) returns (ok: bool)
      modifies this
      ensures (View(), ok) == Step(old(View()), TryInc(tenant, max), true)
    {
      var cur := if tenant in concurrent then concurrent[tenant] else 0;
      if cur >= max { return false; }
      concurrent := concurrent[tenant := cur + 1];
      return true;
    }

    method DecConcurrent(tenant: K)
      modifies this
      ensures View() == Step(old(View()), Dec(tenant), true).0
    {
      var cur := if tenant in concurrent then concurrent[tenant] else 0;
      cur := cur - 1;
      if cur < 0 {
        cur := 0;
      }
      concurrent := concurrent[tenant := cur];
    }
  }

  // ---- internal/quota/postgres.go: the same bucket as one UPDATE on an existing row ----

  datatype Row = Row(tokens: real, lastRefill: real)

  /** The UPDATE only matches, and so only changes, a row with a token to give. */
  function Update(r: Row, qps: int, now: real): (Row, bool) {
    var level := Level(r.tokens, r.lastRefill, qps, now);
    if level >= 1.0 then (Row(level - 1.0, now), true) else (r, false)
  }

  function DrawAll(b: Bucket, qps: int, calls: seq<real>): seq<bool>
    decreases |calls|
  {
    if calls == [] then []
    else var (b', ok) := Draw(b, qps, calls[0]); [ok] + DrawAll(b', qps, calls[1..])
  }

  function UpdateAll(r: Row, qps: int, calls: seq<real>): seq<bool>
    decreases |calls|
  {
    if calls == [] then []
    else var (r', ok) := Update(r, qps, calls[0]); [ok] + UpdateAll(r', qps, calls[1..])
  }

  /** Same fill level at every time at which neither is full. */
  ghost predicate SameLine(b: Bucket, r: Row, qps: int) {
    b.tokens + Inflow(qps as real, b.last, 0.0) == r.tokens + Inflow(qps as real, r.lastRefill, 0.0)
  }

  lemma LineStep(b: Bucket, r: Row, qps: int, now: real)
    requires SameLine(b, r, qps)
    ensures Draw(b, qps, now).1 == Update(r, qps, now).1
    ensures qps >= 1 ==> SameLine(Draw(b, qps, now).0, Update(r, qps, now).0, qps)
  {
    InflowAdds(qps as real, b.last, 0.0, now);
    InflowAdds(qps as real, r.lastRefill, 0.0, now);
    InflowAdds(qps as real, b.last, now, 0.0);
  }

  lemma {:induction false} NothingToGive(b: Bucket, r: Row, qps: int, calls: seq<real>)
    requires qps < 1
    ensures DrawAll(b, qps, calls) == UpdateAll(r, qps, calls)
    decreases |calls|
  {
    if calls != [] {
      NothingToGive(Draw(b, qps, calls[0]).0, Update(r, qps, calls[0]).0, qps, calls[1..]);
    }
  }

  lemma {:induction false} SameLineAnswers(b: Bucket, r: Row, qps: int, calls: seq<real>)
    requires SameLine(b, r, qps) && qps >= 1
    ensures DrawAll(b, qps, calls) == UpdateAll(r, qps, calls)
    decreases |calls|
  {
    if calls != [] {
      LineStep(b, r, qps, calls[0]);
      SameLineAnswers(Draw(b, qps, calls[0]).0, Update(r, qps, calls[0]).0, qps, calls[1..]);
    }
  }

  /** Started alike, the row that drops its refill on a denial and the bucket that keeps it
      answer every later call alike, at any rate and at any times. */
  lemma SqlAgrees(tokens: real, last: real, qps: int, calls: seq<real>)
    ensures DrawAll(Bucket(tokens, last, last), qps, calls) == UpdateAll(Row(tokens, last), qps, calls)
  {
    var b, r := Bucket(tokens, last, last), Row(tokens, last);
    if qps >= 1 {
      SameLineAnswers(b, r, qps, calls);
    } else {
      NothingToGive(b, r, qps, calls);
    }
  }
}
