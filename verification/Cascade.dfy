// agentorchestrator/server.go: cancelling a run's queued and running descendants, over the run store
// of internal/storage/file_run_store.go.
module Cascade {

  datatype Status = Queued | Running | Completed | Failed | Canceled

  datatype Key = Key(tenant: string, id: string)

  /** The fields the cascade reads; both links may name another run of the same tenant. */
  datatype Run = Run(status: Status, retryOf: string, parentRunId: string)

  type Store = map<Key, Run>

  predicate Active(r: Run) {
    r.status == Queued || r.status == Running
  }

  /** ListChildRuns lists r under parent p of tenant t; nothing is listed under an empty id. */
  predicate ChildOf(r: Run, t: string, p: string) {
    t != "" && p != "" && (r.retryOf == p || r.parentRunId == p)
  }

  // ---- What should be cancelled ----

  /** A chain of at most d links leads from run id up to p, over queued or running runs only. */
  predicate Within(m: Store, t: string, p: string, id: string, d: nat)
    decreases d, 0
  {
    && d > 0
    && Key(t, id) in m
    && Active(m[Key(t, id)])
    && (ChildOf(m[Key(t, id)], t, p) || WithinVia(m, t, p, m[Key(t, id)].retryOf, d - 1)
        || WithinVia(m, t, p, m[Key(t, id)].parentRunId, d - 1))
  }

  predicate WithinVia(m: Store, t: string, p: string, q: string, d: nat)
    decreases d, 1
  {
    q != "" && Within(m, t, p, q, d)
  }

  ghost function Reach(m: Store, t: string, p: string, d: nat): set<Key> {
    set k | k in m && k.tenant == t && Within(m, t, p, k.id, d)
  }

  /** The store with these runs cancelled and everything else as it was. */
  function Mark(m: Store, ks: set<Key>): Store {
    map k | k in m :: if k in ks then m[k].(status := Canceled) else m[k]
  }

  /** No queued or running run of the tenant has two different parents. */
  ghost predicate OneParent(m: Store, t: string) {
    forall k | k in m && k.tenant == t && Active(m[k]) ::
      m[k].retryOf == "" || m[k].parentRunId == "" || m[k].retryOf == m[k].parentRunId
  }

  predicate ActiveChild(m: Store, t: string, p: string, c: string) {
    c != "" && Key(t, c) in m && Active(m[Key(t, c)]) && ChildOf(m[Key(t, c)], t, p)
  }

  // ---- Reachability ----

  lemma {:induction false} WithinMore(m: Store, t: string, p: string, id: string, d: nat, e: nat)
    requires Within(m, t, p, id, d) && d <= e
    ensures Within(m, t, p, id, e)
    decreases d
  {
    var r := m[Key(t, id)];
    if WithinVia(m, t, p, r.retryOf, d - 1) { WithinMore(m, t, p, r.retryOf, d - 1, e - 1); }
    if WithinVia(m, t, p, r.parentRunId, d - 1) { WithinMore(m, t, p, r.parentRunId, d - 1, e - 1); }
  }

  /** What an active child of p reaches, p reaches with one link more. */
  lemma {:induction false} ThroughChild(m: Store, t: string, p: string, c: string, id: string, d: nat)
    requires ActiveChild(m, t, p, c) && Within(m, t, c, id, d)
    ensures Within(m, t, p, id, d + 1)
    decreases d
  {
    var r := m[Key(t, id)];
    if ChildOf(r, t, c) {
      assert Within(m, t, p, c, 1);
      WithinMore(m, t, p, c, 1, d);
    } else if WithinVia(m, t, c, r.retryOf, d - 1) {
      ThroughChild(m, t, p, c, r.retryOf, d - 1);
    } else {
      ThroughChild(m, t, p, c, r.parentRunId, d - 1);
    }
  }

  /** Everything p reaches is an active child of p, or reached from one with one link less. */
  lemma {:induction false} FirstStep(m: Store, t: string, p: string, id: string, d: nat) returns (c: string)
    requires Within(m, t, p, id, d) && Named(m)
    ensures ActiveChild(m, t, p, c)
    ensures id == c || Within(m, t, c, id, d - 1)
    decreases d
  {
    var r := m[Key(t, id)];
    if ChildOf(r, t, p) {
      c := id;
    } else if WithinVia(m, t, p, r.retryOf, d - 1) {
      c := FirstStep(m, t, p, r.retryOf, d - 1);
    } else {
      c := FirstStep(m, t, p, r.parentRunId, d - 1);
    }
  }

  /** Run ids are not empty. */
  ghost predicate Named(m: Store) {
    forall k | k in m :: k.id != ""
  }

  /** Cancelling runs outside what p reaches does not change what p reaches. */
  lemma {:induction false} Undisturbed(m: Store, ks: set<Key>, t: string, p: string, id: string, d: nat)
    requires ks !! Reach(m, t, p, d)
    ensures Within(Mark(m, ks), t, p, id, d) <==> Within(m, t, p, id, d)
    decreases d
  {
    var n := Mark(m, ks);
    if d > 0 && Key(t, id) in m {
      var r := m[Key(t, id)];
      ReachMore(m, t, p, d - 1, d);
      Undisturbed(m, ks, t, p, r.retryOf, d - 1);
      Undisturbed(m, ks, t, p, r.parentRunId, d - 1);
      if Within(m, t, p, id, d) { assert Key(t, id) in Reach(m, t, p, d); }
    }
  }

  lemma ReachMore(m: Store, t: string, p: string, d: nat, e: nat)
    requires d <= e
    ensures Reach(m, t, p, d) <= Reach(m, t, p, e)
  {
    forall k | k in Reach(m, t, p, d)
      ensures k in Reach(m, t, p, e)
    {
      WithinMore(m, t, p, k.id, d, e);
    }
  }

  // ---- With one parent each, children's subtrees do not meet ----

  function Parent(r: Run): string {
    if r.retryOf != "" then r.retryOf else r.parentRunId
  }

  lemma LastStep(m: Store, t: string, p: string, id: string, d: nat)
    requires OneParent(m, t) && Within(m, t, p, id, d)
    ensures var q := Parent(m[Key(t, id)]); q != "" && (q == p || Within(m, t, p, q, d - 1))
  {
    var r := m[Key(t, id)];
    assert r.retryOf == "" || r.parentRunId == "" || r.retryOf == r.parentRunId;
    if !ChildOf(r, t, p) {
      assert WithinVia(m, t, p, r.retryOf, d - 1) || WithinVia(m, t, p, r.parentRunId, d - 1);
      assert Within(m, t, p, Parent(r), d - 1);
    }
  }

  lemma OnlyParent(m: Store, k: Key, t: string, p: string)
    requires OneParent(m, t) && k in m && k.tenant == t && Active(m[k]) && ChildOf(m[k], t, p)
    ensures Parent(m[k]) == p
  {
  }

  /** A run reached from one of its own siblings puts p on a loop. */
  lemma SiblingLoop(m: Store, t: string, p: string, a: string, b: string, d: nat)
    requires OneParent(m, t) && ActiveChild(m, t, p, a) && ActiveChild(m, t, p, b) && Within(m, t, a, b, d)
    ensures Within(m, t, p, p, d + 1)
  {
    LastStep(m, t, a, b, d);
    OnlyParent(m, Key(t, b), t, p);
    if a == p {
      assert Within(m, t, p, p, 1);
      WithinMore(m, t, p, p, 1, d + 1);
    } else {
      ThroughChild(m, t, p, a, p, d - 1);
      WithinMore(m, t, p, p, d, d + 1);
    }
  }

  /** So does a run reached from two different children. */
  lemma {:induction false} MeetingLoop(m: Store, t: string, p: string, a: string, b: string, id: string, d: nat)
    requires OneParent(m, t) && ActiveChild(m, t, p, a) && ActiveChild(m, t, p, b) && a != b
    requires Within(m, t, a, id, d) && Within(m, t, b, id, d)
    ensures Within(m, t, p, p, d + 1)
    decreases d
  {
    LastStep(m, t, a, id, d);
    LastStep(m, t, b, id, d);
    var q := Parent(m[Key(t, id)]);
    if q == a {
      SiblingLoop(m, t, p, b, a, d - 1);
    } else if q == b {
      SiblingLoop(m, t, p, a, b, d - 1);
    } else {
      MeetingLoop(m, t, p, a, b, q, d - 1);
    }
    WithinMore(m, t, p, p, d, d + 1);
  }

  // ---- The cascade ----

  /** A child and all it reaches. */
  ghost function Subtree(m: Store, t: string, c: string, d: nat): set<Key> {
    {Key(t, c)} + Reach(m, t, c, d)
  }

  /** Subtrees of different active children do not meet, unless p reaches itself. */
  lemma SubtreesApart(m: Store, t: string, p: string, a: string, b: string, d: nat)
    requires OneParent(m, t) && ActiveChild(m, t, p, a) && ActiveChild(m, t, p, b) && a != b
    requires !Within(m, t, p, p, d + 1)
    ensures Subtree(m, t, a, d) !! Subtree(m, t, b, d)
  {
    forall k | k in Subtree(m, t, a, d)
      ensures k !in Subtree(m, t, b, d)
    {
      ApartAt(m, t, p, a, b, k.id, d);
    }
  }

  lemma ApartAt(m: Store, t: string, p: string, a: string, b: string, id: string, d: nat)
    requires OneParent(m, t) && ActiveChild(m, t, p, a) && ActiveChild(m, t, p, b) && a != b
    requires !Within(m, t, p, p, d + 1)
    ensures !Within(m, t, a, b, d) && !Within(m, t, b, a, d)
    ensures !(Within(m, t, a, id, d) && Within(m, t, b, id, d))
  {
    if Within(m, t, a, b, d) { SiblingLoop(m, t, p, a, b, d); }
    if Within(m, t, b, a, d) { SiblingLoop(m, t, p, b, a, d); }
    if Within(m, t, a, id, d) && Within(m, t, b, id, d) { MeetingLoop(m, t, p, a, b, id, d); }
  }

  /** No active child reaches itself, unless p does. */
  lemma ChildNotReached(m: Store, t: string, p: string, c: string, d: nat)
    requires OneParent(m, t) && ActiveChild(m, t, p, c) && !Within(m, t, p, p, d + 1)
    ensures Key(t, c) !in Reach(m, t, c, d)
  {
    if Within(m, t, c, c, d) { SiblingLoop(m, t, p, c, c, d); }
  }

  /** The subtrees of these children together. */
  ghost function Subtrees(m: Store, t: string, cs: set<string>, d: nat): set<Key> {
    set k | k in m && k.tenant == t && exists c :: c in cs && k in Subtree(m, t, c, d)
  }

  ghost function ActiveChildren(m: Store, t: string, p: string): set<string> {
    set k | k in m && k.tenant == t && ActiveChild(m, t, p, k.id) :: k.id
  }

  /** What p reaches is exactly the subtrees of its active children. */
  lemma ReachIsSubtrees(m: Store, t: string, p: string, d: nat)
    requires Named(m) && d > 0
    ensures Reach(m, t, p, d) == Subtrees(m, t, ActiveChildren(m, t, p), d - 1)
  {
    forall k | k in Reach(m, t, p, d)
      ensures k in Subtrees(m, t, ActiveChildren(m, t, p), d - 1)
    {
      var c := FirstStep(m, t, p, k.id, d);
      assert Key(t, c) in m && c in ActiveChildren(m, t, p);
      assert k in Subtree(m, t, c, d - 1);
    }
    forall k | k in Subtrees(m, t, ActiveChildren(m, t, p), d - 1)
      ensures k in Reach(m, t, p, d)
    {
      var c :| c in ActiveChildren(m, t, p) && k in Subtree(m, t, c, d - 1);
      if k.id == c {
        assert Within(m, t, p, c, 1);
        WithinMore(m, t, p, c, 1, d);
      } else {
        ThroughChild(m, t, p, c, k.id, d - 1);
      }
    }
  }

  /** Marking twice is marking the union. */
  lemma MarkMark(m: Store, a: set<Key>, b: set<Key>)
    ensures Mark(Mark(m, a), b) == Mark(m, a + b)
  {
  }

  lemma MarkOne(m: Store, ks: set<Key>, k: Key)
    requires k in m && k !in ks
    ensures k in Mark(m, ks) && Mark(m, ks)[k] == m[k]
    ensures Mark(m, ks)[k := m[k].(status := Canceled)] == Mark(m, ks + {k})
  {
  }

  /** The state of the loop over p's children: the subtrees of those done are cancelled, one release
      was issued for each run in them. */
  ghost predicate Swept(m: Store, t: string, cs: set<string>, d: nat, now: Store, releases: int) {
    now == Mark(m, Subtrees(m, t, cs, d)) && releases == |Subtrees(m, t, cs, d)|
  }

  /** The next child still stands as it was listed, and cancelling it leaves what it reaches alone. */
  lemma SweepChild(m: Store, t: string, p: string, cs: set<string>, c: string, d: nat, now: Store, releases: int)
    requires OneParent(m, t) && !Within(m, t, p, p, d + 1)
    requires ActiveChild(m, t, p, c) && c !in cs && forall a | a in cs :: ActiveChild(m, t, p, a)
    requires Swept(m, t, cs, d, now, releases)
    ensures Key(t, c) in now && now[Key(t, c)] == m[Key(t, c)]
    ensures var n := now[Key(t, c) := m[Key(t, c)].(status := Canceled)];
            n == Mark(m, Subtrees(m, t, cs, d) + {Key(t, c)}) && Reach(n, t, c, d) == Reach(m, t, c, d)
  {
    SweptApart(m, t, p, cs, c, d);
    ChildNotReached(m, t, p, c, d);
    MarkOne(m, Subtrees(m, t, cs, d), Key(t, c));
    SameReach(m, Subtrees(m, t, cs, d) + {Key(t, c)}, t, c, d);
  }

  /** Then everything it reaches is cancelled, and one more subtree is done. */
  lemma SweepSubtree(m: Store, t: string, p: string, cs: set<string>, c: string, d: nat)
    requires OneParent(m, t) && !Within(m, t, p, p, d + 1)
    requires ActiveChild(m, t, p, c) && c !in cs && forall a | a in cs :: ActiveChild(m, t, p, a)
    ensures Swept(m, t, cs + {c}, d,
                  Mark(Mark(m, Subtrees(m, t, cs, d) + {Key(t, c)}), Reach(m, t, c, d)),
                  |Subtrees(m, t, cs, d)| + 1 + |Reach(m, t, c, d)|)
  {
    var done, reach := Subtrees(m, t, cs, d), Reach(m, t, c, d);
    SweptApart(m, t, p, cs, c, d);
    ChildNotReached(m, t, p, c, d);
    MarkMark(m, done + {Key(t, c)}, reach);
    SubtreesMore(m, t, cs, c, d);
    assert done + {Key(t, c)} + reach == done + Subtree(m, t, c, d);
  }

  lemma SweptApart(m: Store, t: string, p: string, cs: set<string>, c: string, d: nat)
    requires OneParent(m, t) && !Within(m, t, p, p, d + 1)
    requires ActiveChild(m, t, p, c) && c !in cs && forall a | a in cs :: ActiveChild(m, t, p, a)
    ensures Subtrees(m, t, cs, d) !! Subtree(m, t, c, d)
  {
    forall k | k in Subtrees(m, t, cs, d)
      ensures k !in Subtree(m, t, c, d)
    {
      var a :| a in cs && k in Subtree(m, t, a, d);
      SubtreesApart(m, t, p, a, c, d);
    }
  }

  lemma SameReach(m: Store, ks: set<Key>, t: string, p: string, d: nat)
    requires ks !! Reach(m, t, p, d)
    ensures Reach(Mark(m, ks), t, p, d) == Reach(m, t, p, d)
  {
    forall k | k in m && k.tenant == t
      ensures k in Reach(Mark(m, ks), t, p, d) <==> k in Reach(m, t, p, d)
    {
      Undisturbed(m, ks, t, p, k.id, d);
    }
  }

  lemma SubtreesMore(m: Store, t: string, cs: set<string>, c: string, d: nat)
    requires Key(t, c) in m
    ensures Subtrees(m, t, cs + {c}, d) == Subtrees(m, t, cs, d) + Subtree(m, t, c, d)
  {
  }

  lemma NothingSwept(m: Store, t: string, d: nat)
    ensures Swept(m, t, {}, d, m, 0)
  {
    assert Subtrees(m, t, {}, d) == {};
    assert Mark(m, {}) == m;
  }

  lemma MarkKeeps(m: Store, t: string, ks: set<Key>)
    requires Named(m) && OneParent(m, t)
    ensures Named(Mark(m, ks)) && OneParent(Mark(m, ks), t)
  {
  }

  // ---- What the code does ----

  /** One execution: the queued or running children visited, in the order the store listed them, each
      with the execution of the recursive call for it. */
  datatype Schedule = Done | Visit(before: Schedule, child: Key, inner: Schedule)

  datatype Effect = Effect(store: Store, releases: int)

  /** Saving a child writes back the record listed at the start, with its status replaced. */
  function Save(m: Store, now: Store, k: Key): Store {
    if k in m then now[k := m[k].(status := Canceled)] else now
  }

  function Exec(m: Store, s: Schedule): Effect
    decreases s
  {
    match s
    case Done => Effect(m, 0)
    case Visit(before, k, inner) =>
      var a := Exec(m, before);
      var b := Exec(Save(m, a.store, k), inner);
      Effect(b.store, a.releases + 1 + b.releases)
  }

  function Visited(s: Schedule): set<Key> {
    match s
    case Done => {}
    case Visit(before, k, _) => Visited(before) + {k}
  }

  ghost predicate Listed(m: Store, t: string, p: string, k: Key) {
    k in m && k.tenant == t && ChildOf(m[k], t, p)
  }

  /** The schedule so far of a call for p with d levels to go. */
  ghost predicate Partial(m: Store, t: string, p: string, d: nat, s: Schedule)
    decreases s, 0
  {
    match s
    case Done => true
    case Visit(before, k, inner) =>
      && d > 0
      && Partial(m, t, p, d, before)
      && Listed(m, t, p, k) && Active(m[k]) && k !in Visited(before)
      && Full(Save(m, Exec(m, before).store, k), t, k.id, d - 1, inner)
  }

  /** A whole call. */
  ghost predicate Full(m: Store, t: string, p: string, d: nat, s: Schedule)
    decreases s, 1
  {
    && Partial(m, t, p, d, s)
    && (d > 0 ==> forall k | Listed(m, t, p, k) && Active(m[k]) :: k in Visited(s))
  }

  // ---- In any graph, cyclic or not ----

  /** now is m with some of the active runs within d levels of p cancelled, and nothing else changed. */
  ghost predicate OnlyCancels(m: Store, t: string, p: string, d: nat, now: Store) {
    && now.Keys == m.Keys
    && forall k | k in m ::
         now[k] == m[k] || (now[k] == m[k].(status := Canceled) && k.tenant == t && Within(m, t, p, k.id, d))
  }

  lemma {:induction false} WithinFewer(m: Store, n: Store, t: string, p: string, id: string, d: nat)
    requires n.Keys == m.Keys && forall k | k in m :: n[k] == m[k] || n[k] == m[k].(status := Canceled)
    requires Within(n, t, p, id, d)
    ensures Within(m, t, p, id, d)
    decreases d
  {
    var r := n[Key(t, id)];
    if WithinVia(n, t, p, r.retryOf, d - 1) {
      WithinFewer(m, n, t, p, r.retryOf, d - 1);
    }
    if WithinVia(n, t, p, r.parentRunId, d - 1) {
      WithinFewer(m, n, t, p, r.parentRunId, d - 1);
    }
  }

  /** Saving one active child. */
  lemma SaveOnlyCancels(m: Store, t: string, p: string, d: nat, now: Store, k: Key)
    requires OnlyCancels(m, t, p, d, now) && d > 0 && Listed(m, t, p, k) && Active(m[k])
    ensures OnlyCancels(m, t, p, d, Save(m, now, k))
  {
    assert Within(m, t, p, k.id, 1);
    WithinMore(m, t, p, k.id, 1, d);
  }

  /** What the child's own call cancels is within reach of p. */
  lemma InnerOnlyCancels(m: Store, t: string, p: string, d: nat, mid: Store, c: Key, now: Store)
    requires Named(m) && d > 0 && Listed(m, t, p, c) && Active(m[c])
    requires OnlyCancels(m, t, p, d, mid) && OnlyCancels(mid, t, c.id, d - 1, now)
    ensures OnlyCancels(m, t, p, d, now)
  {
    forall k | k in m
      ensures now[k] == m[k] || (now[k] == m[k].(status := Canceled) && k.tenant == t && Within(m, t, p, k.id, d))
    {
      if now[k] != mid[k] {
        WithinFewer(m, mid, t, c.id, k.id, d - 1);
        ThroughChild(m, t, p, c.id, k.id, d - 1);
      }
    }
  }

  /** Whatever the links, the cascade ends, and it cancels nothing but queued or running descendants
      reachable through queued or running runs within the levels left. */
  lemma {:induction false} CancelsOnlyReachable(m: Store, t: string, p: string, d: nat, s: Schedule)
    requires Named(m) && Partial(m, t, p, d, s)
    ensures OnlyCancels(m, t, p, d, Exec(m, s).store)
    decreases s
  {
    if s.Visit? {
      CancelsOnlyReachable(m, t, p, d, s.before);
      var mid := Save(m, Exec(m, s.before).store, s.child);
      SaveOnlyCancels(m, t, p, d, Exec(m, s.before).store, s.child);
      CancelsOnlyReachable(mid, t, s.child.id, d - 1, s.inner);
      InnerOnlyCancels(m, t, p, d, mid, s.child, Exec(mid, s.inner).store);
    }
  }

  // ---- In a forest ----

  function Ids(s: Schedule): set<string> {
    match s
    case Done => {}
    case Visit(before, k, _) => Ids(before) + {k.id}
  }

  lemma {:induction false} VisitedIds(m: Store, t: string, p: string, d: nat, s: Schedule)
    requires Partial(m, t, p, d, s)
    ensures forall c :: c in Ids(s) <==> Key(t, c) in Visited(s)
    decreases s
  {
    if s.Visit? { VisitedIds(m, t, p, d, s.before); }
  }

  ghost predicate Loopless(m: Store, t: string, p: string, d: nat) {
    Named(m) && OneParent(m, t) && !Within(m, t, p, p, d)
  }

  /** After the visits so far: exactly the visited children's subtrees are cancelled, each run in them
      released once. */
  lemma {:induction false} PartialExact(m: Store, t: string, p: string, d: nat, s: Schedule)
    requires d > 0 && Loopless(m, t, p, d) && Partial(m, t, p, d, s)
    ensures forall c | c in Ids(s) :: ActiveChild(m, t, p, c)
    ensures Swept(m, t, Ids(s), d - 1, Exec(m, s).store, Exec(m, s).releases)
    decreases s, 0
  {
    if s.Done? {
      NothingSwept(m, t, d - 1);
    } else {
      var cs, a := Ids(s.before), Exec(m, s.before);
      PartialExact(m, t, p, d, s.before);
      VisitedIds(m, t, p, d, s.before);
      var mid := Save(m, a.store, s.child);
      ChildLoopless(m, t, p, d, cs, s.child, a);
      CascadeExact(mid, t, s.child.id, d - 1, s.inner);
      VisitExact(m, t, p, d, cs, s.child, a);
    }
  }

  /** A visit's own call starts from a store with one parent each and the child no longer active. */
  lemma ChildLoopless(m: Store, t: string, p: string, d: nat, cs: set<string>, k: Key, a: Effect)
    requires Visiting(m, t, p, d, cs, k, a)
    ensures Loopless(Save(m, a.store, k), t, k.id, d - 1)
  {
    SweepChild(m, t, p, cs, k.id, d - 1, a.store, a.releases);
    MarkKeeps(m, t, Subtrees(m, t, cs, d - 1) + {k});
  }

  ghost predicate Visiting(m: Store, t: string, p: string, d: nat, cs: set<string>, k: Key, a: Effect) {
    && d > 0 && Loopless(m, t, p, d)
    && k.tenant == t && ActiveChild(m, t, p, k.id) && k.id !in cs
    && (forall c | c in cs :: ActiveChild(m, t, p, c))
    && Swept(m, t, cs, d - 1, a.store, a.releases)
  }

  /** If the visit's own call is exact, so is the visit. */
  lemma VisitExact(m: Store, t: string, p: string, d: nat, cs: set<string>, k: Key, a: Effect)
    requires Visiting(m, t, p, d, cs, k, a)
    ensures var reach := Reach(Save(m, a.store, k), t, k.id, d - 1);
            Swept(m, t, cs + {k.id}, d - 1, Mark(Save(m, a.store, k), reach), a.releases + 1 + |reach|)
  {
    SweepChild(m, t, p, cs, k.id, d - 1, a.store, a.releases);
    SweepSubtree(m, t, p, cs, k.id, d - 1);
  }

  /** With at most one parent per run and p not below itself, a call cancels exactly the queued or
      running descendants of p reachable through queued or running runs within d levels, changes
      nothing else, and releases the quota once for each, in whatever order the children are listed. */
  lemma {:induction false} CascadeExact(m: Store, t: string, p: string, d: nat, s: Schedule)
    requires Loopless(m, t, p, d) && Full(m, t, p, d, s)
    ensures Exec(m, s) == Effect(Mark(m, Reach(m, t, p, d)), |Reach(m, t, p, d)|)
    decreases s, 1
  {
    if d == 0 {
      assert Reach(m, t, p, 0) == {};
      assert Mark(m, {}) == m;
    } else {
      PartialExact(m, t, p, d, s);
      VisitedIds(m, t, p, d, s);
      ReachIsSubtrees(m, t, p, d);
      forall c | c in ActiveChildren(m, t, p)
        ensures c in Ids(s)
      {
        assert Listed(m, t, p, Key(t, c));
      }
      assert Ids(s) == ActiveChildren(m, t, p);
    }
  }

  /** The cancel handler has just cancelled p itself, so p is not below itself; nor is it when every
      run is newer than its parents. */
  lemma StartsLoopless(m: Store, t: string, p: string, d: nat, born: Key -> int)
    requires Named(m) && OneParent(m, t)
    requires (Key(t, p) in m ==> !Active(m[Key(t, p)]))
          || forall k, q | k in m && ChildOf(m[k], k.tenant, q) :: born(Key(k.tenant, q)) < born(k)
    ensures Loopless(m, t, p, d)
  {
    if Within(m, t, p, p, d) { Descends(m, t, p, p, d, born); }
  }

  lemma {:induction false} Descends(m: Store, t: string, p: string, id: string, d: nat, born: Key -> int)
    requires forall k, q | k in m && ChildOf(m[k], k.tenant, q) :: born(Key(k.tenant, q)) < born(k)
    requires Within(m, t, p, id, d)
    ensures t != "" && born(Key(t, p)) < born(Key(t, id))
    decreases d
  {
    var r := m[Key(t, id)];
    if !ChildOf(r, t, p) {
      var q := if WithinVia(m, t, p, r.retryOf, d - 1) then r.retryOf else r.parentRunId;
      Descends(m, t, p, q, d - 1, born);
      assert ChildOf(m[Key(t, id)], t, q);
    }
  }

  /** Without that the count can be off: a run that retries p and was delegated by another child of p
      is cancelled below that child, and then again from the stale listing.  The service itself never
      sets a run's delegating parent, so such runs come only from a file it has loaded. */
  lemma TwoParents(m: Store, p: string, a: Key, x: Key, s: Schedule)
    requires a.tenant == x.tenant != "" && p != "" && a.id != "" && x.id != "" && p != a.id && a.id != x.id && x.id != p
    requires m == map[a := Run(Running, "", p), x := Run(Running, p, a.id)]
    requires s == Visit(Visit(Done, a, Visit(Done, x, Done)), x, Done)
    ensures Full(m, a.tenant, p, 2, s) && Exec(m, s) == Effect(Mark(m, {a, x}), 3)
  {
    FirstVisit(m, p, a, x);
    assert Mark(m, {a, x}) == Save(m, Mark(m, {a, x}), x);
    assert forall k | k in m :: k == a || k == x;
    assert Full(Mark(m, {a, x}), a.tenant, x.id, 1, Done);
  }

  lemma FirstVisit(m: Store, p: string, a: Key, x: Key)
    requires a.tenant == x.tenant != "" && p != "" && a.id != "" && x.id != "" && p != a.id && a.id != x.id && x.id != p
    requires m == map[a := Run(Running, "", p), x := Run(Running, p, a.id)]
    ensures var s := Visit(Done, a, Visit(Done, x, Done));
            Partial(m, a.tenant, p, 2, s) && Exec(m, s) == Effect(Mark(m, {a, x}), 2)
  {
    var afterA := Save(m, m, a);
    var afterX := Save(afterA, afterA, x);
    InnerVisit(m, p, a, x, afterA, afterX);
    assert afterX == Mark(m, {a, x});
  }

  lemma InnerVisit(m: Store, p: string, a: Key, x: Key, afterA: Store, afterX: Store)
    requires a.tenant == x.tenant != "" && p != "" && a.id != "" && x.id != "" && p != a.id && a.id != x.id && x.id != p
    requires m == map[a := Run(Running, "", p), x := Run(Running, p, a.id)]
    requires afterA == Save(m, m, a) && afterX == Save(afterA, afterA, x)
    ensures Full(afterA, a.tenant, a.id, 1, Visit(Done, x, Done))
    ensures Exec(afterA, Visit(Done, x, Done)) == Effect(afterX, 1)
  {
    assert forall k | k in afterA :: k == a || k == x;
    assert Full(afterX, a.tenant, x.id, 0, Done);
  }

  // ---- The same, said of the runs' fields ----

  /** A chain of runs, each linked to the one before it. */
  datatype Path = From(id: string) | Link(before: Path, id: string)

  function First(path: Path): string {
    match path case From(id) => id case Link(before, _) => First(before)
  }

  function Links(path: Path): nat {
    match path case From(_) => 0 case Link(before, _) => Links(before) + 1
  }

  /** Every run on it but the first is a queued or running run of the tenant, and names the one before it as
      the run it retries or was delegated by. */
  ghost predicate Chain(m: Store, t: string, path: Path) {
    path.Link? ==>
      && Chain(m, t, path.before)
      && t != "" && path.before.id != "" && Key(t, path.id) in m
      && var r := m[Key(t, path.id)];
         && (r.status == Queued || r.status == Running)
         && (r.retryOf == path.before.id || r.parentRunId == path.before.id)
  }

  /** A chain of one to d links leads from p to id. */
  ghost predicate Linked(m: Store, t: string, p: string, id: string, d: nat) {
    exists path :: Chain(m, t, path) && First(path) == p && path.id == id && 1 <= Links(path) <= d
  }

  lemma {:induction false} ChainOf(m: Store, t: string, p: string, id: string, d: nat) returns (path: Path)
    requires Within(m, t, p, id, d)
    ensures Chain(m, t, path) && First(path) == p && path.id == id && 1 <= Links(path) <= d
    decreases d
  {
    var r := m[Key(t, id)];
    if ChildOf(r, t, p) {
      path := Link(From(p), id);
    } else if WithinVia(m, t, p, r.retryOf, d - 1) {
      var before := ChainOf(m, t, p, r.retryOf, d - 1);
      path := Link(before, id);
    } else {
      var before := ChainOf(m, t, p, r.parentRunId, d - 1);
      path := Link(before, id);
    }
  }

  lemma {:induction false} ChainWithin(m: Store, t: string, path: Path, d: nat)
    requires Chain(m, t, path) && 1 <= Links(path) <= d
    ensures Within(m, t, First(path), path.id, d)
  {
    if path.before.Link? { ChainWithin(m, t, path.before, d - 1); }
  }

  lemma WithinIsLinked(m: Store, t: string, p: string, id: string, d: nat)
    ensures Within(m, t, p, id, d) <==> Linked(m, t, p, id, d)
  {
    if Within(m, t, p, id, d) { var path := ChainOf(m, t, p, id, d); }
    if Linked(m, t, p, id, d) {
      var path :| Chain(m, t, path) && First(path) == p && path.id == id && 1 <= Links(path) <= d;
      ChainWithin(m, t, path, d);
    }
  }

  ghost function AllLinked(m: Store, t: string, p: string, d: nat): set<Key> {
    set k | k in m && k.tenant == t && Linked(m, t, p, k.id, d)
  }

  /** Which runs a cascade from an inactive run cancels, field by field, and how many releases it issues. */
  lemma CascadeFields(m: Store, t: string, p: string, d: nat, s: Schedule)
    requires Full(m, t, p, d, s)
    requires forall k | k in m :: k.id != ""
    requires forall k | k in m && k.tenant == t && (m[k].status == Queued || m[k].status == Running) ::
               m[k].retryOf == "" || m[k].parentRunId == "" || m[k].retryOf == m[k].parentRunId
    requires Key(t, p) in m ==> m[Key(t, p)].status != Queued && m[Key(t, p)].status != Running
    ensures var e := Exec(m, s);
            && e.store.Keys == m.Keys
            && (forall k | k in m ::
                  e.store[k] == if k in AllLinked(m, t, p, d) then Run(Canceled, m[k].retryOf, m[k].parentRunId)
                                else m[k])
            && e.releases == |AllLinked(m, t, p, d)|
  {
    StartsLoopless(m, t, p, d, _ => 0);
    CascadeExact(m, t, p, d, s);
    forall k | k in m && k.tenant == t
      ensures Within(m, t, p, k.id, d) <==> Linked(m, t, p, k.id, d)
    {
      WithinIsLinked(m, t, p, k.id, d);
    }
    assert Reach(m, t, p, d) == AllLinked(m, t, p, d);
  }

  // ---- The server ----

  function Levels(maxDepth: nat, depth: nat): nat {
    if depth >= maxDepth then 0 else maxDepth - depth
  }

  class Server {
    var runs: Store
    var released: nat            // DecConcurrent calls
    const maxDepth: nat

    /** ListChildRuns; the caller's iteration order stands for the order of the list. */
    method ListChildRuns(t: string, p: string) returns (children: set<Key>)
      ensures forall k :: k in children <==> Listed(runs, t, p, k)
    {
      if t == "" || p == "" { return {}; }
      children := set k | k in runs && k.tenant == t && (runs[k].retryOf == p || runs[k].parentRunId == p);
    }

    /** cascadeCancelChildren. */
    method CascadeCancelChildren(t: string, p: string, depth: nat) returns (ghost s: Schedule)
      modifies this
      ensures Full(old(runs), t, p, Levels(maxDepth, depth), s)
      ensures Exec(old(runs), s) == Effect(runs, released - old(released))
      decreases Levels(maxDepth, depth), 1
    {
      s := Done;
      if depth >= maxDepth { return; }
      var listed := runs;
      var todo := ListChildRuns(t, p);
      while todo != {}
        invariant Sweeping(listed, t, p, maxDepth - depth, s, todo, Effect(runs, released - old(released)))
        decreases |todo|
      {
        var k :| k in todo;
        if Active(listed[k]) {
          ghost var before := Effect(runs, released - old(released));
          ghost var inner := CancelChild(k, listed[k], depth);
          VisitNext(listed, t, p, maxDepth - depth, s, todo, before, k, inner, runs,
                    released - old(released) - before.releases - 1);
          s := Visit(s, k, inner);
        } else {
          SkipNext(listed, t, p, maxDepth - depth, s, todo, Effect(runs, released - old(released)), k);
        }
        todo := todo - {k};
      }
      AllVisited(listed, t, p, maxDepth - depth, s, Effect(runs, released - old(released)));
    }

    /** The cancel handler from the save of the run itself on: the run, then its descendants. */
    method CancelRun(k: Key)
      requires k in runs && Named(runs)
      modifies this
      ensures var m := old(runs)[k := old(runs)[k].(status := Canceled)];
              && OnlyCancels(m, k.tenant, k.id, maxDepth, runs)
              && (OneParent(old(runs), k.tenant) ==>
                    && runs == Mark(m, Reach(m, k.tenant, k.id, maxDepth))
                    && released == old(released) + 1 + |Reach(m, k.tenant, k.id, maxDepth)|)
    {
      runs := runs[k := runs[k].(status := Canceled)];
      ghost var m := runs;
      ghost var s := CascadeCancelChildren(k.tenant, k.id, 0);
      CancelsOnlyReachable(m, k.tenant, k.id, maxDepth, s);
      if OneParent(m, k.tenant) {
        StartsLoopless(m, k.tenant, k.id, maxDepth, _ => 0);
        CascadeExact(m, k.tenant, k.id, maxDepth, s);
      }
      released := released + 1;
    }

    /** The loop body for a queued or running child. */
    method CancelChild(k: Key, child: Run, depth: nat) returns (ghost inner: Schedule)
      requires depth < maxDepth
      modifies this
      ensures var mid := old(runs)[k := child.(status := Canceled)];
              && Full(mid, k.tenant, k.id, maxDepth - depth - 1, inner)
              && Exec(mid, inner) == Effect(runs, released - old(released) - 1)
      decreases Levels(maxDepth, depth), 0
    {
      runs := runs[k := child.(status := Canceled)];
      released := released + 1;
      inner := CascadeCancelChildren(k.tenant, k.id, depth + 1);
    }
  }

  /** The listed children are still to do, or visited, or not active. */
  ghost predicate Pending(m: Store, t: string, p: string, todo: set<Key>, visited: set<Key>) {
    && (forall k | k in todo :: Listed(m, t, p, k) && k !in visited)
    && (forall k | Listed(m, t, p, k) && Active(m[k]) :: k in todo || k in visited)
  }

  /** The loop over the listed children, with these still to do. */
  ghost predicate Sweeping(m: Store, t: string, p: string, d: nat, s: Schedule, todo: set<Key>, e: Effect) {
    Partial(m, t, p, d, s) && Exec(m, s) == e && Pending(m, t, p, todo, Visited(s))
  }

  lemma VisitNext(m: Store, t: string, p: string, d: nat, s: Schedule, todo: set<Key>, before: Effect, k: Key,
                  inner: Schedule, after: Store, releases: int)
    requires d > 0 && Sweeping(m, t, p, d, s, todo, before) && k in todo && Active(m[k])
    requires var mid := before.store[k := m[k].(status := Canceled)];
             Full(mid, t, k.id, d - 1, inner) && Exec(mid, inner) == Effect(after, releases)
    ensures Sweeping(m, t, p, d, Visit(s, k, inner), todo - {k}, Effect(after, before.releases + 1 + releases))
  {
    assert Save(m, before.store, k) == before.store[k := m[k].(status := Canceled)];
    PendingVisit(m, t, p, todo, Visited(s), k);
  }

  lemma PendingVisit(m: Store, t: string, p: string, todo: set<Key>, visited: set<Key>, k: Key)
    requires Pending(m, t, p, todo, visited) && k in todo
    ensures Pending(m, t, p, todo - {k}, visited + {k})
  {
  }

  lemma SkipNext(m: Store, t: string, p: string, d: nat, s: Schedule, todo: set<Key>, e: Effect, k: Key)
    requires Sweeping(m, t, p, d, s, todo, e) && k in todo && !Active(m[k])
    ensures Sweeping(m, t, p, d, s, todo - {k}, e)
  {
  }

  lemma AllVisited(m: Store, t: string, p: string, d: nat, s: Schedule, e: Effect)
    requires Sweeping(m, t, p, d, s, {}, e)
    ensures Full(m, t, p, d, s) && Exec(m, s) == e
  {
  }
}
