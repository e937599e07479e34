// internal/governance/engine.go: the sliding windows behind the rate limiter and the loop
// detector, seen as one bucket of timestamps passing through a series of checks.
module SlidingWindow {
  /** The timestamps strictly after the cutoff: what a compaction keeps. */
  function Alive(ts: seq<int>, cutoff: int): seq<int> {
    AliveIn(ts, cutoff, |ts|)
  }

  /** ... among the first n. */
  function AliveIn(ts: seq<int>, cutoff: int, n: nat): seq<int>
    requires n <= |ts|
  {
    if n == 0 then []
    else if ts[n - 1] > cutoff then AliveIn(ts, cutoff, n - 1) + [ts[n - 1]]
    else AliveIn(ts, cutoff, n - 1)
  }

  /** Entries in (lo, hi]. */
  ghost function CountIn(ts: seq<int>, lo: int, hi: int): nat {
    CountFirst(ts, lo, hi, |ts|)
  }

  ghost function CountFirst(ts: seq<int>, lo: int, hi: int, n: nat): nat
    requires n <= |ts|
  {
    if n == 0 then 0 else CountFirst(ts, lo, hi, n - 1) + if lo < ts[n - 1] <= hi then 1 else 0
  }

  lemma {:induction false} FirstOf(ts: seq<int>, more: seq<int>, c: int, lo: int, hi: int, n: nat)
    requires n <= |ts|
    ensures AliveIn(ts + more, c, n) == AliveIn(ts, c, n)
    ensures CountFirst(ts + more, lo, hi, n) == CountFirst(ts, lo, hi, n)
    ensures LiveIn(ts + more, c, n) == LiveIn(ts, c, n)
  {
    if n > 0 {
      FirstOf(ts, more, c, lo, hi, n - 1);
    }
  }

  lemma CountAppend(ts: seq<int>, t: int, lo: int, hi: int)
    ensures CountIn(ts + [t], lo, hi) == CountIn(ts, lo, hi) + if lo < t <= hi then 1 else 0
  {
    FirstOf(ts, [t], 0, lo, hi, |ts|);
  }

  lemma {:induction false} AliveShrinks(ts: seq<int>, c: int, d: int, n: nat)
    requires c <= d && n <= |ts|
    ensures |AliveIn(ts, d, n)| <= |AliveIn(ts, c, n)|
  {
    if n > 0 {
      AliveShrinks(ts, c, d, n - 1);
    }
  }

  lemma {:induction false} CountAlive(ts: seq<int>, lo: int, hi: int, n: nat)
    requires n <= |ts|
    ensures CountFirst(ts, lo, hi, n) <= |AliveIn(ts, lo, n)|
  {
    if n > 0 {
      CountAlive(ts, lo, hi, n - 1);
    }
  }

  /** A window of width w ending at a late x holds no more than the one ending at t did. */
  lemma LateWindow(ts: seq<int>, t: int, w: int, x: int)
    requires t <= x
    ensures CountIn(ts, x - w, x) <= |Alive(ts, t - w)|
  {
    CountAlive(ts, x - w, x, |ts|);
    AliveShrinks(ts, t - w, x - w, |ts|);
  }

  // ---- Forgetting only what is old ----

  /** The live times as a list, latest outermost. */
  datatype Times = Empty | Add(earlier: Times, t: int)

  ghost function Live(ts: seq<int>, cutoff: int): Times {
    LiveIn(ts, cutoff, |ts|)
  }

  ghost function LiveIn(ts: seq<int>, cutoff: int, n: nat): Times
    requires n <= |ts|
  {
    if n == 0 then Empty
    else if ts[n - 1] > cutoff then Add(LiveIn(ts, cutoff, n - 1), ts[n - 1])
    else LiveIn(ts, cutoff, n - 1)
  }

  ghost function Size(l: Times): nat {
    if l.Empty? then 0 else Size(l.earlier) + 1
  }

  ghost function Cut(l: Times, d: int): Times {
    if l.Empty? then Empty else if l.t > d then Add(Cut(l.earlier, d), l.t) else Cut(l.earlier, d)
  }

  lemma LiveAppend(ts: seq<int>, t: int, c: int)
    ensures Live(ts + [t], c) == if t > c then Add(Live(ts, c), t) else Live(ts, c)
  {
    FirstOf(ts, [t], c, 0, 0, |ts|);
  }

  lemma {:induction false} LiveIsAlive(ts: seq<int>, c: int, n: nat)
    requires n <= |ts|
    ensures Size(LiveIn(ts, c, n)) == |AliveIn(ts, c, n)|
  {
    if n > 0 {
      LiveIsAlive(ts, c, n - 1);
    }
  }

  lemma {:induction false} LiveTwice(ts: seq<int>, c: int, d: int, n: nat)
    requires c <= d && n <= |ts|
    ensures Live(AliveIn(ts, c, n), d) == LiveIn(ts, d, n)
  {
    if n > 0 {
      LiveTwice(ts, c, d, n - 1);
      LiveAppend(AliveIn(ts, c, n - 1), ts[n - 1], d);
    }
  }

  lemma {:induction false} LiveCut(ts: seq<int>, c: int, d: int, n: nat)
    requires c <= d && n <= |ts|
    ensures LiveIn(ts, d, n) == Cut(LiveIn(ts, c, n), d)
  {
    if n > 0 {
      LiveCut(ts, c, d, n - 1);
    }
  }

  /** A compaction to c changes nothing that is counted after a later d. */
  lemma AliveTwice(ts: seq<int>, c: int, d: int)
    requires c <= d
    ensures |Alive(Alive(ts, c), d)| == |Alive(ts, d)| <= |Alive(ts, c)|
  {
    LiveTwice(ts, c, d, |ts|);
    LiveIsAlive(Alive(ts, c), d, |Alive(ts, c)|);
    LiveIsAlive(ts, d, |ts|);
    AliveShrinks(ts, c, d, |ts|);
  }

  /** The two remember the same times after the cutoff. */
  ghost predicate Same(a: seq<int>, b: seq<int>, cutoff: int) {
    Live(a, cutoff) == Live(b, cutoff)
  }

  lemma SameLater(a: seq<int>, b: seq<int>, c: int, d: int)
    requires Same(a, b, c) && c <= d
    ensures Same(a, b, d)
  {
    LiveCut(a, c, d, |a|);
    LiveCut(b, c, d, |b|);
  }

  lemma SameCompacted(a: seq<int>, cut: int, c: int)
    requires cut <= c
    ensures Same(Alive(a, cut), a, c)
  {
    LiveTwice(a, cut, c, |a|);
  }

  lemma SameAppended(a: seq<int>, b: seq<int>, c: int, t: int)
    requires Same(a, b, c)
    ensures Same(a + [t], b + [t], c)
  {
    LiveAppend(a, t, c);
    LiveAppend(b, t, c);
  }

  // ---- A bucket through a series of checks ----

  /** One check: the bucket before and after it, and whether the check was granted and its
      time recorded here. */
  datatype Tick = Tick(now: int, before: seq<int>, after: seq<int>, hit: bool)

  /** The checks so far, latest outermost. */
  datatype Ticks = NoTicks | Then(front: Ticks, last: Tick)

  ghost function Bucket(ticks: Ticks): seq<int> {
    if ticks.NoTicks? then [] else ticks.last.after
  }

  ghost function LastTick(ticks: Ticks, start: int): int {
    if ticks.NoTicks? then start else ticks.last.now
  }

  /** Every granted time, with nothing forgotten. */
  ghost function Log(ticks: Ticks): seq<int> {
    if ticks.NoTicks? then []
    else Grown(Log(ticks.front), ticks.last.now, ticks.last.hit)
  }

  /** The clock never goes back, and no check forgets a time less than w old. */
  ghost predicate Chain(ticks: Ticks, start: int, w: int) {
    ticks.Then? ==>
      && Chain(ticks.front, start, w)
      && ticks.last.before == Bucket(ticks.front) && LastTick(ticks.front, start) <= ticks.last.now
      && Keeps(ticks.last, w)
  }

  /** The check records its time if granted, and forgets no time less than w old. */
  ghost predicate Keeps(t: Tick, w: int) {
    Same(t.after, Grown(t.before, t.now, t.hit), t.now - w)
  }

  /** Each granted check found fewer than n live times in its window of width v. */
  ghost predicate HadRoom(ticks: Ticks, v: int, n: int) {
    ticks.Then? ==>
      && HadRoom(ticks.front, v, n)
      && (ticks.last.hit ==> |Alive(ticks.last.before, ticks.last.now - v)| < n)
  }

  lemma {:induction false} ChainRemembers(ticks: Ticks, start: int, w: int)
    requires Chain(ticks, start, w)
    ensures Same(Bucket(ticks), Log(ticks), LastTick(ticks, start) - w)
  {
    if ticks.Then? {
      var front, last := ticks.front, ticks.last;
      ChainRemembers(front, start, w);
      SameLater(last.before, Log(front), LastTick(front, start) - w, last.now - w);
      if last.hit {
        SameAppended(last.before, Log(front), last.now - w, last.now);
      }
    }
  }

  /** A check that finds room in its bucket finds room in the full log. */
  lemma LogHasRoom(ticks: Ticks, start: int, w: int, now: int, v: int)
    requires Chain(ticks, start, w) && LastTick(ticks, start) <= now && v <= w
    ensures |Alive(Log(ticks), now - v)| == |Alive(Bucket(ticks), now - v)|
  {
    ChainRemembers(ticks, start, w);
    SameLater(Bucket(ticks), Log(ticks), LastTick(ticks, start) - w, now - v);
    LiveIsAlive(Bucket(ticks), now - v, |Bucket(ticks)|);
    LiveIsAlive(Log(ticks), now - v, |Log(ticks)|);
  }

  ghost function Grown(log: seq<int>, t: int, hit: bool): seq<int> {
    if hit then log + [t] else log
  }

  /** A grant after a check that found room overfills no window. */
  lemma OneMore(log: seq<int>, hit: bool, other: seq<int>, otherHit: bool, t: int, v: int, n: int, x: int)
    requires hit || otherHit ==> |Alive(log, t - v)| + |Alive(other, t - v)| < n
    requires CountIn(log, x - v, x) + CountIn(other, x - v, x) <= n && !(hit && otherHit)
    ensures CountIn(Grown(log, t, hit), x - v, x) + CountIn(Grown(other, t, otherHit), x - v, x) <= n
  {
    CountAppend(log, t, x - v, x);
    CountAppend(other, t, x - v, x);
    if t <= x {
      LateWindow(log, t, v, x);
      LateWindow(other, t, v, x);
    }
  }

  /** In every window of width v, wherever it ends, at most n checks are granted. */
  lemma {:induction false} WindowBound(ticks: Ticks, start: int, w: int, v: int, n: int, x: int)
    requires Chain(ticks, start, w) && v <= w && 0 <= n && HadRoom(ticks, v, n)
    ensures CountIn(Log(ticks), x - v, x) <= n
  {
    if ticks.Then? {
      WindowBound(ticks.front, start, w, v, n, x);
      LogHasRoom(ticks.front, start, w, ticks.last.now, v);
      OneMore(Log(ticks.front), ticks.last.hit, [], false, ticks.last.now, v, n, x);
    }
  }

  /** Two buckets share a limit: a check granted in either found room in both together, and
      is not recorded in both. */
  ghost predicate PairRoom(a: Tick, b: Tick, v: int, n: int) {
    && a.now == b.now && !(a.hit && b.hit)
    && (a.hit || b.hit ==> |Alive(a.before, a.now - v)| + |Alive(b.before, a.now - v)| < n)
  }

  ghost predicate SharedRoom(a: Ticks, b: Ticks, v: int, n: int) {
    && (a.Then? <==> b.Then?)
    && (a.Then? ==> SharedRoom(a.front, b.front, v, n) && PairRoom(a.last, b.last, v, n))
  }

  /** Then the two together never exceed it in any window either. */
  lemma {:induction false} SharedBound(a: Ticks, b: Ticks, start: int, w: int, v: int, n: int, x: int)
    requires Chain(a, start, w) && Chain(b, start, w) && v <= w && 0 <= n && SharedRoom(a, b, v, n)
    ensures CountIn(Log(a), x - v, x) + CountIn(Log(b), x - v, x) <= n
  {
    if a.Then? {
      SharedBound(a.front, b.front, start, w, v, n, x);
      LogHasRoom(a.front, start, w, a.last.now, v);
      LogHasRoom(b.front, start, w, a.last.now, v);
      OneMore(Log(a.front), a.last.hit, Log(b.front), b.last.hit, a.last.now, v, n, x);
    }
  }
}
