// federation/event_store.go: exactly which envelopes are stored, which runs are kept and which events are
// resent, said of the envelopes and the order of ingests alone.
module FederationLaws {
  import opened Common
  import opened Sequences
  import opened FederationStore

  // ---- Sequences as decoded ----

  /** A number is cut off toward zero, a numeral is its value, and anything else is no sequence. */
  lemma SequenceRead(e: Envelope)
    ensures e.event == None ==> SequenceOf(e) == 0
    ensures e.event.Some? ==>
              match e.event.value.sequence
              case Float(v) =>
                if v >= 0.0 then SequenceOf(e) as real <= v < SequenceOf(e) as real + 1.0
                else SequenceOf(e) as real - 1.0 < v <= SequenceOf(e) as real
              case Whole(n) => SequenceOf(e) == n
              case Parsed(Some(i)) => SequenceOf(e) == i
              case Parsed(None) => SequenceOf(e) == 0
              case Other => SequenceOf(e) == 0
  {
  }

  // ---- What a run's record says of its events ----

  /** The last sequence is the highest stored, and only stored ids are remembered. */
  ghost predicate Reflects(st: Stored) {
    && (forall i | 0 <= i < |st.events| :: SequenceOf(st.events[i]) <= st.lastSequence)
    && (st.lastSequence != 0 ==> exists i | 0 <= i < |st.events| :: SequenceOf(st.events[i]) == st.lastSequence)
    && 0 <= st.lastSequence
    && st.seen <= Ids(st.events)
  }

  lemma TakeReflects(st: Stored, e: Envelope, drop: set<string>)
    requires Reflects(st)
    ensures Reflects(Take(st, e, drop))
  {
    if !Rejects(st, e) {
      IdsAppend(st.events, e);
      var after := Take(st, e, drop);
      assert after.events[|st.events|] == e;
      if after.lastSequence != 0 && SequenceOf(e) <= st.lastSequence {
        var i :| 0 <= i < |st.events| && SequenceOf(st.events[i]) == st.lastSequence;
        assert after.events[i] == st.events[i];
      }
    }
  }

  lemma {:induction false} TakeAllReflects(st: Stored, b: Batch)
    requires Reflects(st)
    ensures Reflects(TakeAll(st, b))
  {
    if b.Also? {
      TakeAllReflects(st, b.before);
      TakeReflects(TakeAll(st, b.before), b.envelope, b.drop);
    }
  }

  ghost predicate AllReflect(s: Store) {
    forall k | k in s.m :: Reflects(s.m[k])
  }

  lemma {:induction false} HistoryReflects(h: History)
    requires Legal(h)
    ensures AllReflect(After(h))
  {
    if h.Then? {
      HistoryReflects(h.past);
      HistoryKeeps(h.past);
      var s := After(h.past);
      TakeAllReflects(RunOf(s, h.key), h.batch);
      KeptRecords(s, h.key, TakeAll(RunOf(s, h.key), h.batch));
    }
  }

  /** An ingest changes no record but its own. */
  lemma KeptRecords(s: Store, k: RunKey, st: Stored)
    requires Inv(s)
    ensures var mid := Store(s.m[k := st], if k in s.m then s.order else s.order + [k]);
            forall x | x in Evict(mid).m :: x in mid.m && Evict(mid).m[x] == mid.m[x]
  {
    AppendListed(s, k, st);
    EvictOne(Store(s.m[k := st], if k in s.m then s.order else s.order + [k]));
  }

  // ---- Exactly which envelopes are accepted ----

  /** The envelope has an event with an id and, if it is sequenced, a sequence above all stored. */
  ghost predicate InOrder(st: Stored, e: Envelope) {
    && e.event.Some? && e.event.value.eventId != ""
    && (SequenceOf(e) == 0
        || (SequenceOf(e) > 0 && forall i | 0 <= i < |st.events| :: SequenceOf(e) > SequenceOf(st.events[i])))
  }

  /** No stored event has its id. */
  ghost predicate NewId(st: Stored, e: Envelope) {
    forall i | 0 <= i < |st.events| && st.events[i].event.Some? && e.event.Some? ::
      st.events[i].event.value.eventId != e.event.value.eventId
  }

  lemma RejectsExactly(st: Stored, e: Envelope)
    requires Good(st) && Remembers(st) && Reflects(st)
    ensures InOrder(st, e) && NewId(st, e) ==> !Rejects(st, e)
    ensures !Rejects(st, e) ==> InOrder(st, e)
    ensures |st.events| <= 10000 ==> (!Rejects(st, e) <==> InOrder(st, e) && NewId(st, e))
  {
    forall i | 0 <= i < |st.events|
      ensures IdOf(st.events[i]) in Ids(st.events) && st.events[i].event.Some?
    {
    }
    if SequenceOf(e) > 0 && st.lastSequence != 0 {
      var i :| 0 <= i < |st.events| && SequenceOf(st.events[i]) == st.lastSequence;
    }
  }

  /** At any point of any ingest after any history, an envelope is accepted if it comes in order with an id
      none of the stored events has, and never out of order; while no more than 10000 events are stored,
      exactly then. */
  lemma AcceptedExactly(h: History, k: RunKey, b: Batch, e: Envelope)
    requires Legal(h) && LegalBatch(RunOf(After(h), k), b)
    ensures var st := TakeAll(RunOf(After(h), k), b);
            && (InOrder(st, e) && NewId(st, e) ==> !Rejects(st, e))
            && (!Rejects(st, e) ==> InOrder(st, e))
            && (|st.events| <= 10000 ==> (!Rejects(st, e) <==> InOrder(st, e) && NewId(st, e)))
  {
    var st := RunOf(After(h), k);
    HistoryKeeps(h);
    HistoryReflects(h);
    assert Good(st) && Remembers(st) && Reflects(st);
    TakeAllKeepsGood(st, b);
    TakeAllRemembers(st, b);
    TakeAllReflects(st, b);
    RejectsExactly(TakeAll(st, b), e);
  }

  // ---- Exactly which runs are kept ----

  /** The last 500. */
  function Newest(created: seq<RunKey>): seq<RunKey> {
    if |created| <= 500 then created else created[|created| - 500..]
  }

  /** The runs in order of their creation; one that is not among the newest 500 any more is created anew. */
  function Created(h: History): seq<RunKey> {
    if h.Fresh? then []
    else if h.key in Newest(Created(h.past)) then Created(h.past)
    else Created(h.past) + [h.key]
  }

  lemma NewestMore(created: seq<RunKey>, k: RunKey)
    ensures Newest(created + [k])
            == if |Newest(created)| < 500 then Newest(created) + [k] else Newest(created)[1..] + [k]
    ensures |Newest(created)| <= 500
  {
  }

  lemma IngestOrder(s: Store, k: RunKey, b: Batch)
    requires Inv(s)
    ensures Ingest(s, k, b).order
            == if k in s.m then s.order
               else if |s.order| < 500 then s.order + [k]
               else s.order[1..] + [k]
  {
    var mid := Store(s.m[k := TakeAll(RunOf(s, k), b)], if k in s.m then s.order else s.order + [k]);
    AppendListed(s, k, TakeAll(RunOf(s, k), b));
    EvictOne(mid);
    DistinctSize(s.order);
    assert |s.m| == |s.m.Keys| == |s.order|;
  }

  /** After every history exactly the 500 runs created last are stored. */
  lemma {:induction false} KeptExactly(h: History)
    requires Legal(h)
    ensures After(h).order == Newest(Created(h)) && forall k :: k in After(h).m <==> k in Newest(Created(h))
  {
    HistoryKeeps(h);
    if h.Then? {
      KeptExactly(h.past);
      HistoryKeeps(h.past);
      IngestOrder(After(h.past), h.key, h.batch);
      NewestMore(Created(h.past), h.key);
    }
    forall k
      ensures k in After(h).m <==> k in After(h).order
    {
      assert k in After(h).m <==> k in Elems(After(h).order);
    }
  }

  // ---- Exactly which events are resent ----

  /** The same places one further on, after place 0 if that is taken too. */
  function Moved(at: seq<nat>, first: bool): (r: seq<nat>)
    ensures |r| == |at| + (if first then 1 else 0)
  {
    var moved := seq(|at|, j requires 0 <= j < |at| => at[j] + 1);
    if first then [0] + moved else moved
  }

  lemma MovedHolds(at: seq<nat>, first: bool, i: nat)
    ensures i in Moved(at, first) <==> if i == 0 then first else i - 1 in at
  {
    var moved := seq(|at|, j requires 0 <= j < |at| => at[j] + 1);
    assert i in moved <==> i > 0 && i - 1 in at by {
      if i > 0 && i - 1 in at {
        var j :| 0 <= j < |at| && at[j] == i - 1;
        assert moved[j] == i;
      }
    }
    if first { assert i in [0] + moved <==> i == 0 || i in moved; }
  }

  ghost predicate Rising(at: seq<nat>) {
    forall j, k | 0 <= j < k < |at| :: at[j] < at[k]
  }

  /** The events at these places. */
  ghost predicate At(picked: seq<Envelope>, events: seq<Envelope>, at: seq<nat>) {
    |at| == |picked| && forall j | 0 <= j < |at| :: at[j] < |events| && picked[j] == events[at[j]]
  }

  lemma MovedRises(at: seq<nat>, first: bool)
    requires Rising(at)
    ensures Rising(Moved(at, first))
  {
  }

  lemma MovedAt(picked: seq<Envelope>, events: seq<Envelope>, at: seq<nat>)
    requires events != [] && At(picked, events[1..], at)
    ensures At(picked, events, Moved(at, false))
  {
  }

  lemma MovedFirst(picked: seq<Envelope>, events: seq<Envelope>, at: seq<nat>)
    requires events != [] && At(picked, events, Moved(at, false))
    ensures At([events[0]] + picked, events, Moved(at, true))
  {
    var all, moved := [events[0]] + picked, Moved(at, true);
    forall j | 0 <= j < |moved|
      ensures moved[j] < |events| && all[j] == events[moved[j]]
    {
      if j > 0 {
        assert moved[j] == Moved(at, false)[j - 1];
        assert all[j] == picked[j - 1];
      }
    }
  }

  /** Resuming resends, in order, the events at exactly these places: those without a sequence and those with
      one above the one asked for. */
  lemma {:induction false} ResumeSelects(events: seq<Envelope>, from: int) returns (at: seq<nat>)
    ensures Rising(at) && At(Resume(events, from), events, at)
    ensures forall i: nat | i < |events| :: i in at <==> SequenceOf(events[i]) == 0 || SequenceOf(events[i]) > from
  {
    if events == [] {
      at := [];
    } else {
      var rest := ResumeSelects(events[1..], from);
      at := Moved(rest, Wanted(events[0], from));
      MovedRises(rest, Wanted(events[0], from));
      MovedAt(Resume(events[1..], from), events, rest);
      MovedFirst(Resume(events[1..], from), events, rest);
      Unit(Resume(events[1..], from));
      forall i: nat | i < |events|
        ensures i in at <==> SequenceOf(events[i]) == 0 || SequenceOf(events[i]) > from
      {
        MovedHolds(rest, Wanted(events[0], from), i);
      }
    }
  }
}
