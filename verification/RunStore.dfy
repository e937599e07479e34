// internal/storage/file_run_store.go: the file run store's map and access-order list,
// which together form a bounded least-recently-used cache.
module RunStore {
  import opened Common
  import opened Sequences

  const MAX_RUNS: nat := 5000   // maxRunsInRunStore

  datatype Cache<!K, +R> = Cache(runs: map<K, R>, order: seq<K>)

  /** A request; the key is None when the ids are empty or the context is already cancelled,
      which every operation refuses before touching the store. */
  datatype Op<+K, +R> =
    | Create(key: Option<K>, run: R)
    | Save(key: Option<K>, run: R)
    | Get(key: Option<K>)

  datatype Response<+R> = Refused | Exists | Written | Found(run: R) | NotFound

  // ---- What each operation does to the two fields ----

  /** touchOrderLocked */
  function Touch<K(==)>(order: seq<K>, k: K): seq<K> {
    Without(order, k) + [k]
  }

  /** evictLocked */
  function Evict<K, R>(c: Cache<K, R>): Cache<K, R>
    decreases |c.order|
  {
    if |c.runs| > MAX_RUNS && |c.order| > 0
    then Evict(Cache(c.runs - {c.order[0]}, c.order[1..]))
    else c
  }

  function Write<K(==), R>(c: Cache<K, R>, k: K, run: R): Cache<K, R> {
    Evict(Cache(c.runs[k := run], Touch(c.order, k)))
  }

  function Step<K(==), R>(c: Cache<K, R>, op: Op<K, R>): (Cache<K, R>, Response<R>) {
    if op.key.None? then (c, if op.Get? then NotFound else Refused)
    else
      var k := op.key.value;
      match op
      case Create(_, run) => if k in c.runs then (c, Exists) else (Write(c, k, run), Written)
      case Save(_, run) => (Write(c, k, run), Written)
      case Get(_) =>
        if k in c.runs then (Cache(c.runs, Touch(c.order, k)), Found(c.runs[k])) else (c, NotFound)
  }

  /** load: the persisted map's entries in whatever order they come. */
  function Load<K, R>(entries: seq<(K, R)>): Cache<K, R> {
    Evict(Cache(Contents(entries), Keys(entries)))
  }

  function Keys<K, R>(entries: seq<(K, R)>): seq<K> {
    seq(|entries|, i requires 0 <= i < |entries| => entries[i].0)
  }

  function Contents<K, R>(entries: seq<(K, R)>): map<K, R> {
    if entries == [] then map[]
    else Contents(entries[..|entries| - 1])[entries[|entries| - 1].0 := entries[|entries| - 1].1]
  }

  /** The store after a start-up load and a whole history of requests. */
  function Replay<K(==), R>(entries: seq<(K, R)>, h: seq<Op<K, R>>): Cache<K, R> {
    if h == [] then Load(entries) else Step(Replay(entries, h[..|h| - 1]), h[|h| - 1]).0
  }

  // ---- The same history without any cache: touches, distances and an unbounded map ----

  /** The other keys touched after k's last touch. */
  ghost function Since<K>(touches: seq<K>, k: K): set<K> {
    if touches == [] then {}
    else
      var last := touches[|touches| - 1];
      if last == k then {} else Since(touches[..|touches| - 1], k) + {last}
  }

  /** k was touched, and fewer than 5000 distinct other keys since. */
  ghost predicate Recent<K>(touches: seq<K>, k: K) {
    k in touches && |Since(touches, k)| < 5000
  }

  ghost predicate Touches<K, R>(before: seq<K>, op: Op<K, R>) {
    op.key.Some? && match op
      case Create(_, _) => !Recent(before, op.key.value)
      case Save(_, _) => true
      case Get(_) => Recent(before, op.key.value)
  }

  /** Every key touched so far, in order: a save always touches, a create when it is not
      refused as a duplicate, a get when it hits. */
  ghost function Touched<K, R>(entries: seq<(K, R)>, h: seq<Op<K, R>>): seq<K> {
    if h == [] then Keys(entries)
    else
      var before := Touched(entries, h[..|h| - 1]);
      var op := h[|h| - 1];
      if Touches(before, op) then before + [op.key.value] else before
  }

  /** The last value written under each key, with nothing ever evicted. */
  ghost function LastWritten<K, R>(entries: seq<(K, R)>, h: seq<Op<K, R>>): map<K, R> {
    if h == [] then Contents(entries)
    else
      var before := LastWritten(entries, h[..|h| - 1]);
      var op := h[|h| - 1];
      if !op.Get? && Touches(Touched(entries, h[..|h| - 1]), op) then before[op.key.value := op.run] else before
  }

  // ---- The invariant tying the order list to the touches ----

  /** The list is duplicate-free, and what follows a key in it is exactly what was touched
      since that key. */
  ghost predicate Tracked<K>(touches: seq<K>, order: seq<K>) {
    order != [] ==>
      && order[0] in touches && order[0] !in order[1..]
      && Since(touches, order[0]) == Elems(order[1..])
      && Tracked(touches, order[1..])
  }

  /** A key that has dropped out of the list was followed by at least MAX_RUNS others. */
  ghost predicate Dropped<K>(touches: seq<K>, order: seq<K>) {
    forall k | k in touches && k !in order :: |Since(touches, k)| >= MAX_RUNS
  }

  ghost predicate Agree<K, R>(c: Cache<K, R>, touches: seq<K>, written: map<K, R>) {
    && Tracked(touches, c.order) && Dropped(touches, c.order)
    && c.runs.Keys == Elems(c.order)
    && SubMap(c.runs, written)
  }

  ghost predicate SubMap<K, R>(m: map<K, R>, n: map<K, R>) {
    forall k | k in m :: k in n && m[k] == n[k]
  }

  lemma UpdateBoth<K, R>(m: map<K, R>, n: map<K, R>, k: K, r: R)
    requires SubMap(m, n)
    ensures SubMap(m[k := r], n[k := r]) && m[k := r].Keys == m.Keys + {k}
  {
  }

  lemma {:induction false} TrackedDistinct<K>(touches: seq<K>, order: seq<K>)
    requires Tracked(touches, order)
    ensures Distinct(order) && |Elems(order)| == |order|
  {
    if order != [] {
      TrackedDistinct(touches, order[1..]);
      assert Elems(order) == {order[0]} + Elems(order[1..]);
    }
  }

  lemma {:induction false} TouchElems<K>(order: seq<K>, k: K)
    ensures Elems(Touch(order, k)) == Elems(order) + {k}
  {
    if order == [] || order[0] == k {
      assert order != [] ==> Touch(order, k) == order[1..] + [k];
    } else {
      TouchElems(order[1..], k);
      TouchHead(order, k);
      assert Elems(Touch(order, k)) == {order[0]} + Elems(Touch(order[1..], k));
      assert Elems(order) == {order[0]} + Elems(order[1..]);
    }
  }

  lemma TouchHead<K>(order: seq<K>, k: K)
    requires order != [] && order[0] != k
    ensures Touch(order, k) == [order[0]] + Touch(order[1..], k)
  {
  }

  lemma {:induction false} TouchTracked<K>(touches: seq<K>, order: seq<K>, k: K)
    requires Tracked(touches, order)
    ensures Tracked(touches + [k], Touch(order, k))
  {
    if order == [] {
      assert (touches + [k])[..|touches|] == touches;
    } else if order[0] == k {
      TouchNew(order[1..], k);
      TouchTracked(touches, order[1..], k);
    } else {
      var t, rest := touches + [k], order[1..];
      assert t[..|t| - 1] == touches;
      TouchHead(order, k);
      TouchTracked(touches, rest, k);
      TouchElems(rest, k);
      assert Touch(order, k)[1..] == Touch(rest, k);
      assert order[0] !in Touch(rest, k) by { assert order[0] !in Elems(Touch(rest, k)); }
    }
  }

  lemma {:induction false} TouchNew<K>(order: seq<K>, k: K)
    requires k !in order
    ensures Touch(order, k) == order + [k]
  {
    if order != [] {
      TouchNew(order[1..], k);
      TouchHead(order, k);
    }
  }

  lemma TouchDropped<K>(touches: seq<K>, order: seq<K>, k: K)
    requires Dropped(touches, order)
    ensures Dropped(touches + [k], Touch(order, k))
  {
    var t := touches + [k];
    assert t[..|t| - 1] == touches;
    TouchElems(order, k);
    forall x | x in t && x !in Touch(order, k)
      ensures |Since(t, x)| >= MAX_RUNS
    {
      assert x !in Elems(Touch(order, k));
      SizeGrows(Since(touches, x), k);
    }
  }

  lemma SizeGrows<K>(s: set<K>, k: K)
    ensures |s + {k}| >= |s|
  {
    if k in s { assert s + {k} == s; }
  }

  lemma {:induction false} EvictAgrees<K, R>(c: Cache<K, R>, touches: seq<K>, written: map<K, R>)
    requires Agree(c, touches, written)
    ensures Agree(Evict(c), touches, written) && |Evict(c).order| <= MAX_RUNS
    decreases |c.order|
  {
    TrackedDistinct(touches, c.order);
    if |c.runs| > MAX_RUNS {
      var head, rest := c.order[0], c.order[1..];
      assert Elems(c.order) == {head} + Elems(rest);
      TrackedDistinct(touches, rest);
      EvictAgrees(Cache(c.runs - {head}, rest), touches, written);
    }
  }

  lemma StoreAgrees<K, R>(c: Cache<K, R>, touches: seq<K>, written: map<K, R>, k: K, run: R)
    requires Agree(c, touches, written)
    ensures Agree(Cache(c.runs[k := run], Touch(c.order, k)), touches + [k], written[k := run])
  {
    TouchTracked(touches, c.order, k);
    TouchDropped(touches, c.order, k);
    TouchElems(c.order, k);
    UpdateBoth(c.runs, written, k, run);
  }

  lemma WriteAgrees<K, R>(c: Cache<K, R>, touches: seq<K>, written: map<K, R>, k: K, run: R)
    requires Agree(c, touches, written)
    ensures Agree(Write(c, k, run), touches + [k], written[k := run])
    ensures |Write(c, k, run).order| <= MAX_RUNS
  {
    StoreAgrees(c, touches, written, k, run);
    EvictAgrees(Cache(c.runs[k := run], Touch(c.order, k)), touches + [k], written[k := run]);
  }

  lemma GetAgrees<K, R>(c: Cache<K, R>, touches: seq<K>, written: map<K, R>, k: K)
    requires Agree(c, touches, written) && k in c.runs
    ensures Agree(Cache(c.runs, Touch(c.order, k)), touches + [k], written)
    ensures |Touch(c.order, k)| == |c.order|
  {
    TouchTracked(touches, c.order, k);
    TouchDropped(touches, c.order, k);
    TouchElems(c.order, k);
    assert Elems(c.order) + {k} == Elems(c.order);
    TrackedDistinct(touches, c.order);
    TrackedDistinct(touches + [k], Touch(c.order, k));
  }

  lemma {:induction false} TrackedSince<K>(touches: seq<K>, order: seq<K>, k: K)
    requires Tracked(touches, order) && k in order
    ensures k in touches && |Since(touches, k)| < |order|
  {
    if order[0] == k {
      TrackedDistinct(touches, order[1..]);
    } else {
      TrackedSince(touches, order[1..], k);
    }
  }

  /** While the list is within the cap, being cached and being recent are the same. */
  lemma CachedIsRecent<K, R>(c: Cache<K, R>, touches: seq<K>, written: map<K, R>, k: K)
    requires Agree(c, touches, written) && |c.order| <= MAX_RUNS
    ensures k in c.runs <==> Recent(touches, k)
  {
    if k in c.runs {
      assert k in Elems(c.order);
      TrackedSince(touches, c.order, k);
    } else {
      assert k !in Elems(c.order);
    }
  }

  lemma {:induction false} LoadAgrees<K, R>(entries: seq<(K, R)>)
    requires Distinct(Keys(entries))
    ensures Agree(Load(entries), Keys(entries), Contents(entries)) && |Load(entries).order| <= MAX_RUNS
  {
    var ks := Keys(entries);
    ContentsKeys(entries);
    assert ks[0..] == ks;
    DistinctTracked(ks, 0);
    EvictAgrees(Cache(Contents(entries), ks), ks, Contents(entries));
  }

  lemma {:induction false} DistinctTracked<K>(ks: seq<K>, i: nat)
    requires Distinct(ks) && i <= |ks|
    ensures Tracked(ks, ks[i..])
    decreases |ks| - i
  {
    if i < |ks| {
      DistinctTracked(ks, i + 1);
      SinceSuffix(ks, i);
      assert ks[i..][1..] == ks[i + 1..];
    }
  }

  lemma {:induction false} SinceSuffix<K>(ks: seq<K>, i: nat)
    requires Distinct(ks) && i < |ks|
    ensures Since(ks, ks[i]) == Elems(ks[i + 1..])
  {
    if i < |ks| - 1 {
      var front := ks[..|ks| - 1];
      SinceSuffix(front, i);
      assert ks[i + 1..] == front[i + 1..] + [ks[|ks| - 1]];
    }
  }

  lemma {:induction false} ContentsKeys<K, R>(entries: seq<(K, R)>)
    ensures Contents(entries).Keys == Elems(Keys(entries))
  {
    if entries != [] {
      var front := entries[..|entries| - 1];
      ContentsKeys(front);
      assert Keys(entries) == Keys(front) + [entries[|entries| - 1].0];
    }
  }

  lemma {:induction false} ReplayAgrees<K, R>(entries: seq<(K, R)>, h: seq<Op<K, R>>)
    requires Distinct(Keys(entries))
    ensures Agree(Replay(entries, h), Touched(entries, h), LastWritten(entries, h))
    ensures |Replay(entries, h).order| <= MAX_RUNS
  {
    if h == [] {
      LoadAgrees(entries);
    } else {
      var front, op := h[..|h| - 1], h[|h| - 1];
      ReplayAgrees(entries, front);
      var c, t, w := Replay(entries, front), Touched(entries, front), LastWritten(entries, front);
      if op.key.Some? {
        var k := op.key.value;
        CachedIsRecent(c, t, w, k);
        if op.Get? {
          if k in c.runs {
            GetAgrees(c, t, w, k);
          }
        } else {
          WriteAgrees(c, t, w, k, op.run);
        }
      }
    }
  }

  // ---- The store's promises, over every history ----

  /** After any history a run is cached exactly when fewer than MAX_RUNS distinct other keys
      were touched since its own last touch, and then with its last written value. */
  lemma CacheCharacterised<K, R>(entries: seq<(K, R)>, h: seq<Op<K, R>>, k: K)
    requires Distinct(Keys(entries))
    ensures k in Replay(entries, h).runs <==> Recent(Touched(entries, h), k)
    ensures k in Replay(entries, h).runs ==>
              k in LastWritten(entries, h) && Replay(entries, h).runs[k] == LastWritten(entries, h)[k]
  {
    ReplayAgrees(entries, h);
    CachedIsRecent(Replay(entries, h), Touched(entries, h), LastWritten(entries, h), k);
  }

  /** The order list is always a duplicate-free permutation of the map's keys, within the cap. */
  lemma OrderIsPermutation<K, R>(entries: seq<(K, R)>, h: seq<Op<K, R>>)
    requires Distinct(Keys(entries))
    ensures var c := Replay(entries, h);
            Distinct(c.order) && Elems(c.order) == c.runs.Keys && |c.order| == |c.runs| <= 5000
  {
    ReplayAgrees(entries, h);
    TrackedDistinct(Touched(entries, h), Replay(entries, h).order);
  }

  /** What a caller sees of the cache: a get finds the last written value exactly while the key
      is recent, and a create is refused as a duplicate exactly while the key is recent. */
  lemma ResponseCharacterised<K, R>(entries: seq<(K, R)>, h: seq<Op<K, R>>, op: Op<K, R>)
    requires Distinct(Keys(entries)) && op.key.Some?
    ensures var k, r := op.key.value, Step(Replay(entries, h), op).1;
            match op
            case Save(_, _) => r == Written
            case Create(_, _) => r == if Recent(Touched(entries, h), k) then Exists else Written
            case Get(_) =>
              if Recent(Touched(entries, h), k)
              then k in LastWritten(entries, h) && r == Found(LastWritten(entries, h)[k])
              else r == NotFound
  {
    CacheCharacterised(entries, h, op.key.value);
  }

  // ---- The store object ----

  class FileRunStore<K(==), R> {
    var runs: map<K, R>
    var runOrder: seq<K>

    ghost function State(): Cache<K, R>
      reads this
    {
      Cache(runs, runOrder)
    }

    /** NewFileRunStore followed by load */
    constructor (entries: seq<(K, R)>)
      ensures State() == Load(entries)
    {
      var loaded: map<K, R>, order: seq<K> := map[], [];
      for i := 0 to |entries|
        invariant loaded == Contents(entries[..i]) && order == Keys(entries)[..i]
      {
        assert entries[..i + 1][..i] == entries[..i];
        loaded := loaded[entries[i].0 := entries[i].1];
        order := order + [entries[i].0];
      }
      assert entries[..|entries|] == entries && Keys(entries)[..|entries|] == Keys(entries);
      runs, runOrder := loaded, order;
      new;
      EvictLocked();
    }

    method TouchOrderLocked(key: K)
      modifies this
      ensures runs == old(runs) && runOrder == Touch(old(runOrder), key)
    {
      for i := 0 to |runOrder|
        invariant runs == old(runs) && runOrder == old(runOrder)
        invariant Without(runOrder, key) == runOrder[..i] + Without(runOrder[i..], key)
      {
        if runOrder[i] == key {
          runOrder := runOrder[..i] + runOrder[i + 1..];
          break;
        }
      }
      runOrder := runOrder + [key];
    }

    method EvictLocked()
      modifies this
      ensures State() == Evict(old(State()))
    {
      while |runs| > MAX_RUNS && |runOrder| > 0
        invariant Evict(State()) == Evict(old(State()))
        decreases |runOrder|
      {
        var oldest := runOrder[0];
        runOrder := runOrder[1..];
        runs := runs - {oldest};
      }
    }

    method CreateRun(key: Option<K>, run: R) returns (r: Response<R>)
      modifies this
      ensures (State(), r) == Step(old(State()), Create(key, run))
    {
      if key.None? { return Refused; }
      if key.value in runs { return Exists; }
      runs := runs[key.value := run];
      TouchOrderLocked(key.value);
      EvictLocked();
      return Written;
    }

    method SaveRun(key: Option<K>, run: R) returns (r: Response<R>)
      modifies this
      ensures (State(), r) == Step(old(State()), Save(key, run))
    {
      if key.None? { return Refused; }
      runs := runs[key.value := run];
      TouchOrderLocked(key.value);
      EvictLocked();
      return Written;
    }

    method GetRun(key: Option<K>) returns (r: Response<R>)
      modifies this
      ensures (State(), r) == Step(old(State()), Get(key))
    {
      if key.None? || key.value !in runs { return NotFound; }
      TouchOrderLocked(key.value);
      return Found(runs[key.value]);
    }
  }
}
