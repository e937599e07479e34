// internal/quota/limiter.go: what the sweeps leave in memory, said of the calls made alone.
module QuotaSweeps {
  import opened Common
  import opened Sequences
  import opened Quota

  /** When the tenant last called. */
  function LastCall<K(==)>(ops: seq<Op<K>>, t: K): Option<real> {
    if ops == [] then None
    else
      var op := ops[|ops| - 1];
      if op.Allow? && op.tenant == t then Some(op.now) else LastCall(ops[..|ops| - 1], t)
  }

  /** How many calls all tenants have made. */
  function CallsMade<K>(ops: seq<Op<K>>): nat {
    if ops == [] then 0 else CallsMade(ops[..|ops| - 1]) + (if ops[|ops| - 1].Allow? then 1 else 0)
  }

  /** The tenant called within the hour before. */
  predicate Lively<K(==)>(ops: seq<Op<K>>, t: K, now: real) {
    LastCall(ops, t).Some? && LastCall(ops, t).value >= now - 3600.0
  }

  /** A bucket tells when its tenant last called; one is missing only for a tenant that did not call within the
      last hour. */
  ghost predicate Tells<K(!new)>(m: Backend<K>, ops: seq<Op<K>>, clock: real) {
    && (forall t | t in m.buckets :: LastCall(ops, t) == Some(m.buckets[t].lastAccess))
    && (forall t | t !in m.buckets :: !Lively(ops, t, clock))
  }

  lemma LastCallMore<K(!new)>(front: seq<Op<K>>, op: Op<K>)
    ensures forall t :: LastCall(front + [op], t) == if op.Allow? && op.tenant == t then Some(op.now)
                                                    else LastCall(front, t)
    ensures CallsMade(front + [op]) == CallsMade(front) + (if op.Allow? then 1 else 0)
  {
    Front(front, op);
  }

  lemma SweepTells<K(!new)>(m: Backend<K>, ops: seq<Op<K>>, clock: real, now: real)
    requires Tells(m, ops, clock) && clock <= now
    ensures Tells(Sweep(m, now), ops, now)
    ensures forall t :: t in Sweep(m, now).buckets <==> Lively(ops, t, now)
  {
  }

  lemma CallTells<K(!new)>(m: Backend<K>, front: seq<Op<K>>, clock: real, op: Op<K>)
    requires Tells(m, front, clock) && op.Allow? && clock <= op.now
    ensures Tells(Step(m, op, true).0, front + [op], op.now)
  {
    LastCallMore(front, op);
    var n := m.(allowCount := m.allowCount + 1);
    SweepTells(n, front, clock, op.now);
    var swept := if n.allowCount % SWEEP_EVERY == 0 then Sweep(n, op.now) else n;
    assert Tells(swept, front, op.now);
    var after := Step(m, op, true).0;
    assert forall t :: t in after.buckets <==> t == op.tenant || t in swept.buckets;
    assert forall t | t in swept.buckets && t != op.tenant :: after.buckets[t] == swept.buckets[t];
    assert after.buckets[op.tenant].lastAccess == op.now;
  }

  lemma {:induction false} StateTells<K(!new)>(ops: seq<Op<K>>, start: real)
    requires Legal(ops, start)
    ensures State(ops, true).allowCount == CallsMade(ops)
    ensures Tells(State(ops, true), ops, Clock(ops, start))
  {
    if ops != [] {
      var front, op := ops[..|ops| - 1], ops[|ops| - 1];
      StateTells(front, start);
      assert ops == front + [op];
      LastCallMore(front, op);
      if op.Allow? {
        CallTells(State(front, true), front, Clock(front, start), op);
      }
    }
  }

  /** Every hundredth call leaves a bucket for exactly the tenants that called within the last hour and the one
      calling, and drops the counters at or below zero of all others; any other call drops nothing. */
  lemma SweepExact<K(!new)>(front: seq<Op<K>>, start: real, op: Op<K>, t: K)
    requires op.Allow? && Legal(front + [op], start)
    ensures var before, after := State(front, true), State(front + [op], true);
            if CallsMade(front + [op]) % 100 == 0
            then && (t in after.buckets <==> t == op.tenant || Lively(front, t, op.now))
                 && (t in after.concurrent <==>
                       t in before.concurrent && (before.concurrent[t] > 0 || Lively(front, t, op.now)))
                 && (t in after.concurrent ==> after.concurrent[t] == before.concurrent[t])
            else && (t in after.buckets <==> t == op.tenant || t in before.buckets)
                 && after.concurrent == before.concurrent
  {
    Front(front, op);
    StateTells(front, start);
    StateOf(front, op, true);
    LastCallMore(front, op);
    var n := State(front, true).(allowCount := State(front, true).allowCount + 1);
    SweepTells(n, front, Clock(front, start), op.now);
  }
}
