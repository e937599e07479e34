// federation/event_store.go: per-run logs of events received from peers, deduplicated, kept in
// sequence, and capped both in ids remembered and in runs kept.
module FederationStore {
  import opened Common
  import opened Sequences

  const MAX_RUNS: nat := 500         // maxStoredRuns
  const MAX_SEEN: nat := 10000       // maxSeenEventIDs

  /** An event's "sequence" field as decoded from JSON. */
  datatype SequenceField =
    | Float(value: real)              // float64
    | Whole(n: int)                   // int, int64
    | Parsed(result: Option<int>)     // json.Number or string, through strconv.Atoi
    | Other                           // absent, or of any other type

  /** An envelope; eventId is "" when the event has none, event None when there is no event. */
  datatype Event = Event(eventId: string, sequence: SequenceField)
  datatype Envelope = Envelope(event: Option<Event>, body: string)

  /** eventSequence; 0 stands for an event without a usable sequence. */
  function SequenceOf(e: Envelope): int {
    match e.event
    case None => 0
    case Some(ev) =>
      match ev.sequence
      case Float(v) => Truncate(v)
      case Whole(n) => n
      case Parsed(Some(i)) => i
      case Parsed(None) => 0
      case Other => 0
  }

  function IdOf(e: Envelope): string {
    if e.event.Some? then e.event.value.eventId else ""
  }

  datatype Stored = Stored(seen: set<string>, lastSequence: int, events: seq<Envelope>)

  const NEW_RUN := Stored({}, 0, [])

  predicate Rejects(st: Stored, e: Envelope) {
    || IdOf(e) == ""
    || (SequenceOf(e) != 0 && SequenceOf(e) <= st.lastSequence)
    || IdOf(e) in st.seen
  }

  /** One envelope.  drop is what the map iteration happens to delete when the id set is full. */
  function Take(st: Stored, e: Envelope, drop: set<string>): Stored {
    if Rejects(st, e) then st
    else
      var seen := if |st.seen| >= MAX_SEEN then st.seen - drop else st.seen;
      Stored(seen + {IdOf(e)},
             if SequenceOf(e) > st.lastSequence then SequenceOf(e) else st.lastSequence,
             st.events + [e])
  }

  /** A tenth of the ids, whichever they are. */
  ghost predicate LegalDrop(st: Stored, e: Envelope, drop: set<string>) {
    !Rejects(st, e) && |st.seen| >= MAX_SEEN ==> drop <= st.seen && |drop| == MAX_SEEN / 10
  }

  /** A batch as it is worked off: the envelopes taken so far, latest outermost. */
  datatype Batch = Done | Also(before: Batch, envelope: Envelope, drop: set<string>)

  function TakeAll(st: Stored, b: Batch): Stored {
    if b.Done? then st else Take(TakeAll(st, b.before), b.envelope, b.drop)
  }

  function Accepted(st: Stored, b: Batch): nat {
    if b.Done? then 0
    else Accepted(st, b.before) + if Rejects(TakeAll(st, b.before), b.envelope) then 0 else 1
  }

  function Rejected(st: Stored, b: Batch): nat {
    if b.Done? then 0
    else Rejected(st, b.before) + if Rejects(TakeAll(st, b.before), b.envelope) then 1 else 0
  }

  ghost predicate LegalBatch(st: Stored, b: Batch) {
    b.Also? ==> LegalBatch(st, b.before) && LegalDrop(TakeAll(st, b.before), b.envelope, b.drop)
  }

  function Envelopes(b: Batch): seq<Envelope> {
    if b.Done? then [] else Envelopes(b.before) + [b.envelope]
  }

  /** The envelopes of a batch that are accepted. */
  function Taken(st: Stored, b: Batch): seq<Envelope> {
    if b.Done? then []
    else Taken(st, b.before) + if Rejects(TakeAll(st, b.before), b.envelope) then [] else [b.envelope]
  }

  // ---- One run's log ----

  /** No more ids than the cap are remembered; sequences are positive, strictly rise through the
      log, and end at lastSequence. */
  ghost predicate Good(st: Stored) {
    && |st.seen| <= MAX_SEEN
    && 0 <= st.lastSequence
    && (forall i | 0 <= i < |st.events| :: IdOf(st.events[i]) != "" && 0 <= SequenceOf(st.events[i]) <= st.lastSequence)
    && Rising(st.events)
  }

  ghost predicate Rising(events: seq<Envelope>) {
    forall i, j | 0 <= i < j < |events| && SequenceOf(events[i]) != 0 && SequenceOf(events[j]) != 0 ::
      SequenceOf(events[i]) < SequenceOf(events[j])
  }

  lemma TakeKeepsGood(st: Stored, e: Envelope, drop: set<string>)
    requires Good(st) && LegalDrop(st, e, drop)
    ensures Good(Take(st, e, drop))
  {
    if !Rejects(st, e) {
      SeenStaysCapped(st, e, drop);
      var after := st.events + [e];
      forall i, j | 0 <= i < j < |after| && SequenceOf(after[i]) != 0 && SequenceOf(after[j]) != 0
        ensures SequenceOf(after[i]) < SequenceOf(after[j])
      {
        if j == |st.events| {
          assert SequenceOf(st.events[i]) <= st.lastSequence;
        }
      }
    }
  }

  lemma SeenStaysCapped(st: Stored, e: Envelope, drop: set<string>)
    requires |st.seen| <= MAX_SEEN && LegalDrop(st, e, drop)
    ensures |Take(st, e, drop).seen| <= MAX_SEEN
  {
    if !Rejects(st, e) && |st.seen| >= MAX_SEEN {
      assert st.seen == (st.seen - drop) + drop;
    }
  }

  lemma {:induction false} TakeAllKeepsGood(st: Stored, b: Batch)
    requires Good(st) && LegalBatch(st, b)
    ensures Good(TakeAll(st, b))
  {
    if b.Also? {
      TakeAllKeepsGood(st, b.before);
      TakeKeepsGood(TakeAll(st, b.before), b.envelope, b.drop);
    }
  }

  /** Every envelope of a batch is accepted or rejected, and the accepted ones are what is
      appended, in order, to what was there. */
  lemma {:induction false} BatchAccounts(st: Stored, b: Batch)
    ensures Accepted(st, b) + Rejected(st, b) == |Envelopes(b)|
    ensures TakeAll(st, b).events == st.events + Taken(st, b) && |Taken(st, b)| == Accepted(st, b)
  {
    if b.Also? {
      BatchAccounts(st, b.before);
    }
  }

  /** The same id with the same nonzero sequence is never stored twice, even after the id has
      been dropped from the capped set. */
  lemma NeverStoredTwice(st: Stored, i: nat, j: nat)
    requires Good(st) && i < j < |st.events|
    requires IdOf(st.events[i]) == IdOf(st.events[j]) && SequenceOf(st.events[i]) == SequenceOf(st.events[j])
    ensures SequenceOf(st.events[i]) == 0
  {
  }

  // ---- Ids, while none has been dropped ----

  ghost function Ids(events: seq<Envelope>): set<string> {
    set i | 0 <= i < |events| :: IdOf(events[i])
  }

  ghost predicate DistinctIds(events: seq<Envelope>) {
    forall i, j | 0 <= i < j < |events| :: IdOf(events[i]) != IdOf(events[j])
  }

  /** Up to the cap the set holds every stored id; one event further they are still distinct. */
  ghost predicate Remembers(st: Stored) {
    && (|st.events| <= MAX_SEEN ==> st.seen == Ids(st.events) && |st.seen| == |st.events|)
    && (|st.events| <= MAX_SEEN + 1 ==> DistinctIds(st.events))
  }

  lemma IdsAppend(events: seq<Envelope>, e: Envelope)
    ensures Ids(events + [e]) == Ids(events) + {IdOf(e)}
  {
    var after := events + [e];
    assert after[|events|] == e;
    forall i | 0 <= i < |events|
      ensures IdOf(events[i]) in Ids(after)
    {
      assert after[i] == events[i];
    }
  }

  lemma TakeRemembers(st: Stored, e: Envelope, drop: set<string>)
    requires Remembers(st)
    ensures Remembers(Take(st, e, drop))
  {
    if !Rejects(st, e) {
      IdsAppend(st.events, e);
      forall i | 0 <= i < |st.events| && |st.events| <= MAX_SEEN
        ensures IdOf(st.events[i]) != IdOf(e)
      {
        assert IdOf(st.events[i]) in Ids(st.events);
      }
    }
  }

  lemma {:induction false} TakeAllRemembers(st: Stored, b: Batch)
    requires Remembers(st)
    ensures Remembers(TakeAll(st, b))
  {
    if b.Also? {
      TakeAllRemembers(st, b.before);
      TakeRemembers(TakeAll(st, b.before), b.envelope, b.drop);
    }
  }

  // ---- The store ----

  datatype RunKey = RunKey(tenant: string, run: string)

  datatype Store = Store(m: map<RunKey, Stored>, order: seq<RunKey>)

  const EMPTY := Store(map[], [])

  function RunOf(s: Store, k: RunKey): Stored {
    if k in s.m then s.m[k] else NEW_RUN
  }

  function Evict(s: Store): Store
    decreases |s.order|
  {
    if |s.m| > MAX_RUNS && |s.order| > 0 then Evict(Store(s.m - {s.order[0]}, s.order[1..])) else s
  }

  function Ingest(s: Store, k: RunKey, b: Batch): Store {
    Evict(Store(s.m[k := TakeAll(RunOf(s, k), b)], if k in s.m then s.order else s.order + [k]))
  }

  datatype History = Fresh | Then(past: History, key: RunKey, batch: Batch)

  function After(h: History): Store {
    if h.Fresh? then EMPTY else Ingest(After(h.past), h.key, h.batch)
  }

  ghost predicate Legal(h: History) {
    h.Then? ==> Legal(h.past) && LegalBatch(RunOf(After(h.past), h.key), h.batch)
  }

  ghost predicate GoodRuns(m: map<RunKey, Stored>) {
    forall k | k in m :: Good(m[k]) && Remembers(m[k])
  }

  ghost predicate Listed(s: Store) {
    Distinct(s.order) && Elems(s.order) == s.m.Keys
  }

  ghost predicate Inv(s: Store) {
    Listed(s) && GoodRuns(s.m) && |s.m| <= MAX_RUNS
  }

  lemma DropHead(s: Store)
    requires Listed(s) && s.order != []
    ensures var t := Store(s.m - {s.order[0]}, s.order[1..]); Listed(t) && |t.m| == |s.m| - 1
  {
    var head, rest := s.order[0], s.order[1..];
    var m := s.m - {head};
    assert Elems(s.order) == {head} + Elems(rest);
    assert head in Elems(s.order) && head in s.m.Keys;
    assert m.Keys == s.m.Keys - {head};
    assert |m| == |m.Keys| && |s.m| == |s.m.Keys|;
  }

  /** Over the cap by one, eviction removes exactly the head of the order. */
  lemma EvictOne(s: Store)
    requires Listed(s) && |s.m| <= MAX_RUNS + 1
    ensures Listed(Evict(s)) && |Evict(s).m| <= MAX_RUNS
    ensures |s.m| <= MAX_RUNS ==> Evict(s) == s
    ensures |s.m| > MAX_RUNS ==> s.order != [] && Evict(s) == Store(s.m - {s.order[0]}, s.order[1..])
  {
    if |s.m| > MAX_RUNS {
      ListedNonEmpty(s);
      DropHead(s);
    }
  }

  lemma ListedNonEmpty(s: Store)
    requires Listed(s) && |s.m| > 0
    ensures s.order != []
  {
    assert |s.m| == |s.m.Keys|;
    var k :| k in s.m.Keys;
    assert k in Elems(s.order);
  }

  lemma AppendListed(s: Store, k: RunKey, st: Stored)
    requires Listed(s)
    ensures var t := Store(s.m[k := st], if k in s.m then s.order else s.order + [k]);
            Listed(t) && |t.m| == |s.m| + (if k in s.m then 0 else 1)
            && (k !in s.m ==> t.order[|t.order| - 1] == k)
  {
    var m := s.m[k := st];
    assert m.Keys == s.m.Keys + {k};
    if k in s.m {
      assert s.m.Keys + {k} == s.m.Keys;
    } else {
      assert k !in Elems(s.order);
      assert Elems(s.order + [k]) == Elems(s.order) + {k};
    }
    assert |m| == |m.Keys| && |s.m| == |s.m.Keys|;
  }

  /** Each ingest keeps the store sound and never evicts the run it was for. */
  lemma IngestKeeps(s: Store, k: RunKey, b: Batch)
    requires Inv(s) && LegalBatch(RunOf(s, k), b)
    ensures Inv(Ingest(s, k, b))
    ensures k in Ingest(s, k, b).m && Ingest(s, k, b).m[k] == TakeAll(RunOf(s, k), b)
  {
    var st := TakeAll(RunOf(s, k), b);
    var mid := Store(s.m[k := st], if k in s.m then s.order else s.order + [k]);
    TakeAllKeepsGood(RunOf(s, k), b);
    TakeAllRemembers(RunOf(s, k), b);
    AppendListed(s, k, st);
    EvictOne(mid);
    DistinctSize(mid.order);
    assert |mid.m| == |mid.m.Keys| == |mid.order|;
    KeyStays(mid, k);
    GoodRunsUpdated(s.m, k, st, Evict(mid).m);
  }

  lemma GoodRunsUpdated(m: map<RunKey, Stored>, k: RunKey, st: Stored, after: map<RunKey, Stored>)
    requires GoodRuns(m) && Good(st) && Remembers(st)
    requires forall x | x in after :: x in m[k := st] && after[x] == m[k := st][x]
    ensures GoodRuns(after)
  {
  }

  /** The run appended last, or already within the cap, survives eviction. */
  lemma KeyStays(s: Store, k: RunKey)
    requires Listed(s) && |s.m| <= MAX_RUNS + 1 && k in s.m
    requires |s.m| > MAX_RUNS ==> |s.order| > 1 && s.order[|s.order| - 1] == k
    ensures k in Evict(s).m && Evict(s).m[k] == s.m[k]
    ensures forall x | x in Evict(s).m :: x in s.m && Evict(s).m[x] == s.m[x]
  {
    EvictOne(s);
    if |s.m| > MAX_RUNS {
      assert s.order[0] != s.order[|s.order| - 1];
    }
  }

  lemma {:induction false} HistoryKeeps(h: History)
    requires Legal(h)
    ensures Inv(After(h))
  {
    if h.Then? {
      HistoryKeeps(h.past);
      IngestKeeps(After(h.past), h.key, h.batch);
    }
  }

  // ---- The store's promises, over every history ----

  /** The order lists exactly the stored runs, once each, and at most MAX_RUNS of them; every
      stored run's log is sound; the run just ingested is among them with all it accepted. */
  lemma StoreSound(h: History)
    requires Legal(h)
    ensures var s := After(h);
            && Distinct(s.order) && Elems(s.order) == s.m.Keys && |s.m| <= MAX_RUNS
            && (forall k | k in s.m :: Rising(s.m[k].events) && |s.m[k].seen| <= MAX_SEEN)
    ensures h.Then? ==> h.key in After(h).m && After(h).m[h.key] == TakeAll(RunOf(After(h.past), h.key), h.batch)
  {
    HistoryKeeps(h);
    if h.Then? {
      HistoryKeeps(h.past);
      IngestKeeps(After(h.past), h.key, h.batch);
    }
  }

  /** No duplicates: never the same id at the same nonzero sequence, and no id twice at all among
      a run's first MAX_SEEN + 1 events. */
  lemma NoDuplicates(h: History, k: RunKey, i: nat, j: nat)
    requires Legal(h) && k in After(h).m && i < j < |After(h).m[k].events|
    requires IdOf(After(h).m[k].events[i]) == IdOf(After(h).m[k].events[j])
    ensures SequenceOf(After(h).m[k].events[i]) != SequenceOf(After(h).m[k].events[j])
         || SequenceOf(After(h).m[k].events[i]) == 0
    ensures |After(h).m[k].events| > MAX_SEEN + 1
  {
    HistoryKeeps(h);
    NeverTwiceOr(After(h).m[k], i, j);
  }

  lemma NeverTwiceOr(st: Stored, i: nat, j: nat)
    requires Good(st) && Remembers(st) && i < j < |st.events| && IdOf(st.events[i]) == IdOf(st.events[j])
    ensures SequenceOf(st.events[i]) != SequenceOf(st.events[j]) || SequenceOf(st.events[i]) == 0
    ensures |st.events| > MAX_SEEN + 1
  {
    if SequenceOf(st.events[i]) == SequenceOf(st.events[j]) {
      NeverStoredTwice(st, i, j);
    }
  }

  // ---- Resuming ----

  predicate Wanted(e: Envelope, from: int) {
    SequenceOf(e) == 0 || SequenceOf(e) > from
  }

  function Resume(events: seq<Envelope>, from: int): seq<Envelope> {
    if events == [] then []
    else (if Wanted(events[0], from) then [events[0]] else []) + Resume(events[1..], from)
  }

  /** Once a sequenced event of a sound log is resent, so is everything after it. */
  lemma ResumeIsSuffix(st: Stored, from: int, i: nat, j: nat)
    requires Good(st) && i < j < |st.events|
    requires SequenceOf(st.events[i]) != 0 && Wanted(st.events[i], from)
    ensures Wanted(st.events[j], from)
  {
  }

  ghost predicate Sequenced(events: seq<Envelope>) {
    Rising(events) && forall i | 0 <= i < |events| :: SequenceOf(events[i]) != 0
  }

  /** The first cut events are those up to the sequence. */
  ghost predicate CutAt(events: seq<Envelope>, from: int, cut: nat) {
    cut <= |events| && forall i | 0 <= i < |events| :: i < cut <==> SequenceOf(events[i]) <= from
  }

  lemma SequencedTail(events: seq<Envelope>)
    requires Sequenced(events) && events != []
    ensures Sequenced(events[1..])
    ensures forall i | 0 < i < |events| :: SequenceOf(events[0]) < SequenceOf(events[i])
  {
  }

  lemma CutLater(events: seq<Envelope>, from: int, cut: nat)
    requires events != [] && SequenceOf(events[0]) <= from && CutAt(events[1..], from, cut)
    ensures CutAt(events, from, cut + 1) && events[1..][cut..] == events[cut + 1..]
  {
    forall i | 0 <= i < |events|
      ensures i < cut + 1 <==> SequenceOf(events[i]) <= from
    {
      if i > 0 { assert events[i] == events[1..][i - 1]; }
    }
  }

  /** A log without unsequenced events is resent from a cut on. */
  lemma {:induction false} ResumeCut(events: seq<Envelope>, from: int) returns (cut: nat)
    requires Sequenced(events)
    ensures CutAt(events, from, cut) && Resume(events, from) == events[cut..]
  {
    if events == [] {
      cut := 0;
    } else {
      SequencedTail(events);
      if Wanted(events[0], from) {
        cut := 0;
        ResumeAll(events, from);
        assert events[0..] == events;
      } else {
        var rest := ResumeCut(events[1..], from);
        cut := rest + 1;
        CutLater(events, from, rest);
        Unit(Resume(events[1..], from));
      }
    }
  }

  lemma {:induction false} ResumeAll(events: seq<Envelope>, from: int)
    requires forall i | 0 <= i < |events| :: SequenceOf(events[i]) > from
    ensures Resume(events, from) == events
  {
    if events != [] {
      ResumeAll(events[1..], from);
      assert events == [events[0]] + events[1..];
    }
  }

  // ---- The store object ----

  class EventStore {
    var m: map<RunKey, Stored>
    var runOrder: seq<RunKey>

    constructor ()
      ensures View() == EMPTY
    {
      m, runOrder := map[], [];
    }

    ghost function View(): Store
      reads this
    {
      Store(m, runOrder)
    }

    /** Deletes a tenth of the ids, whichever the iteration meets first. */
    method DropSome(seen: set<string>) returns (kept: set<string>, ghost drop: set<string>)
      requires |seen| >= MAX_SEEN
      ensures kept == seen - drop && drop <= seen && |drop| == MAX_SEEN / 10
    {
      kept, drop := seen, {};
      for count := 0 to MAX_SEEN / 10
        invariant kept == seen - drop && drop <= seen && |drop| == count && |kept| == |seen| - count
      {
        var old_ :| old_ in kept;
        kept := kept - {old_};
        drop := drop + {old_};
      }
    }

    method IngestBatch(key: RunKey, envelopes: seq<Envelope>)
      returns (accepted: nat, rejected: nat, ghost batch: Batch)
      requires Inv(View())
      modifies this
      ensures Envelopes(batch) == envelopes && LegalBatch(RunOf(old(View()), key), batch)
      ensures View() == Ingest(old(View()), key, batch)
      ensures accepted == Accepted(RunOf(old(View()), key), batch)
      ensures rejected == Rejected(RunOf(old(View()), key), batch)
      ensures accepted + rejected == |envelopes|
    {
      ghost var before := RunOf(View(), key);
      var st := NEW_RUN;
      if key in m {
        st := m[key];
      } else {
        runOrder := runOrder + [key];
      }
      st, accepted, rejected, batch := TakeEach(st, envelopes);
      BatchAccounts(before, batch);
      AppendListed(old(View()), key, st);
      m := m[key := st];
      EvictOldest();
    }

    method TakeEach(start: Stored, envelopes: seq<Envelope>)
      returns (st: Stored, accepted: nat, rejected: nat, ghost batch: Batch)
      ensures Envelopes(batch) == envelopes && LegalBatch(start, batch) && st == TakeAll(start, batch)
      ensures accepted == Accepted(start, batch) && rejected == Rejected(start, batch)
    {
      st, accepted, rejected, batch := start, 0, 0, Done;
      for i := 0 to |envelopes|
        invariant Envelopes(batch) == envelopes[..i] && LegalBatch(start, batch) && st == TakeAll(start, batch)
        invariant accepted == Accepted(start, batch) && rejected == Rejected(start, batch)
      {
        assert envelopes[..i + 1] == envelopes[..i] + [envelopes[i]];
        ghost var drop: set<string>;
        var ok;
        st, ok, drop := TakeOne(st, envelopes[i]);
        if ok {
          accepted := accepted + 1;
        } else {
          rejected := rejected + 1;
        }
        batch := Also(batch, envelopes[i], drop);
      }
      assert envelopes[..|envelopes|] == envelopes;
    }

    method TakeOne(st: Stored, env: Envelope) returns (after: Stored, ok: bool, ghost drop: set<string>)
      ensures after == Take(st, env, drop) && LegalDrop(st, env, drop) && (ok <==> !Rejects(st, env))
    {
      drop := {};
      if env.event.None? || env.event.value.eventId == "" { return st, false, drop; }
      var eid, sequence := env.event.value.eventId, SequenceOf(env);
      if sequence != 0 && sequence <= st.lastSequence { return st, false, drop; }
      if eid in st.seen { return st, false, drop; }
      var seen := st.seen;
      if |seen| >= MAX_SEEN {
        seen, drop := DropSome(seen);
      }
      var last := st.lastSequence;
      if sequence > last {
        last := sequence;
      }
      return Stored(seen + {eid}, last, st.events + [env]), true, drop;
    }

    method EvictOldest()
      requires Listed(View())
      modifies this
      ensures View() == Evict(old(View()))
    {
      while |m| > MAX_RUNS
        invariant Listed(View()) && Evict(View()) == Evict(old(View()))
        decreases |runOrder|
      {
        ListedNonEmpty(View());
        DropHead(View());
        var oldest := runOrder[0];
        runOrder := runOrder[1..];
        m := m - {oldest};
      }
    }

    method ListFromSequence(key: RunKey, from: int) returns (r: Option<seq<Envelope>>)
      ensures r == if key in m then Some(Resume(m[key].events, from)) else None
    {
      if key !in m { return None; }
      var events := m[key].events;
      var out: seq<Envelope> := [];
      assert events[0..] == events;
      Unit(Resume(events, from));
      for i := 0 to |events|
        invariant Resume(events, from) == out + Resume(events[i..], from)
      {
        assert events[i..][1..] == events[i + 1..];
        if Wanted(events[i], from) {
          Assoc(out, [events[i]], Resume(events[i + 1..], from));
          out := out + [events[i]];
        } else {
          Unit(Resume(events[i + 1..], from));
        }
      }
      Unit(out);
      r := Some(out);
    }
  }
}
