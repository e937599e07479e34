// internal/pii/detector.go and the pattern tables of internal/pii/patterns.go: which spans of
// a text are reported as personal data.  A text is a sequence of bytes.
module PiiScan {
  import opened Sequences

  datatype Detection = Detection(pattern: string, start: nat, end: nat)

  datatype Span = Span(start: nat, end: nat)

  /** A regular expression is known only by the matches it finds; validate is the extra test,
      such as the Luhn check, that a match must pass. */
  datatype Pattern = Pattern(name: string, find: string -> seq<Span>, validate: string -> bool)

  // ---- Tables ----

  const PATTERN_ORDER: seq<string> := ["ssn", "credit_card", "email", "phone", "ip_address"]

  function PriorityOf(name: string): int {
    if name == "ssn" then 1
    else if name == "credit_card" then 2
    else if name == "email" then 3
    else if name == "phone" then 4
    else if name == "ip_address" then 5
    else 999
  }

  /** NewDetector: the requested names, or all of them, always in the built-in order. */
  function EnabledNames(wanted: seq<string>, order: seq<string>): seq<string> {
    if order == [] then []
    else (if wanted == [] || order[0] in wanted then [order[0]] else []) + EnabledNames(wanted, order[1..])
  }

  ghost predicate Ranked(names: seq<string>) {
    forall i, j | 0 <= i < j < |names| :: PriorityOf(names[i]) < PriorityOf(names[j])
  }

  lemma {:induction false} EnabledRanked(wanted: seq<string>, order: seq<string>)
    requires Ranked(order)
    ensures Ranked(EnabledNames(wanted, order))
    ensures forall n :: n in EnabledNames(wanted, order) <==> n in order && (wanted == [] || n in wanted)
  {
    if order != [] {
      EnabledRanked(wanted, order[1..]);
      var rest := EnabledNames(wanted, order[1..]);
      assert forall n :: n in order <==> n == order[0] || n in order[1..];
      forall i | 0 <= i < |rest|
        ensures PriorityOf(order[0]) < PriorityOf(rest[i])
      {
        assert rest[i] in order[1..];
      }
    }
  }

  // ---- Matches and candidates ----

  /** What any Go regular expression without empty matches returns: in bounds, in order, disjoint. */
  ghost predicate GoodSpans(spans: seq<Span>, n: nat) {
    && (forall i | 0 <= i < |spans| :: spans[i].start < spans[i].end <= n)
    && (forall i, j | 0 <= i < j < |spans| :: spans[i].end <= spans[j].start)
  }

  /** The enabled patterns are built-in ones in priority order, none twice. */
  ghost predicate GoodPatterns(ps: seq<Pattern>, text: string) {
    && (forall i | 0 <= i < |ps| :: GoodSpans(ps[i].find(text), |text|))
    && (forall i, j | 0 <= i < j < |ps| :: PriorityOf(ps[i].name) < PriorityOf(ps[j].name))
  }

  /** The built-in table: each name's own pattern, whose matches are as above. */
  ghost predicate GoodTable(builtin: string -> Pattern, text: string) {
    forall n | n in PATTERN_ORDER :: builtin(n).name == n && GoodSpans(builtin(n).find(text), |text|)
  }

  function PatternsOf(names: seq<string>, builtin: string -> Pattern): seq<Pattern> {
    seq(|names|, i requires 0 <= i < |names| => builtin(names[i]))
  }

  lemma PatternsMore(names: seq<string>, n: string, builtin: string -> Pattern)
    ensures PatternsOf(names + [n], builtin) == PatternsOf(names, builtin) + [builtin(n)]
  {
  }

  /** The patterns a detector set up with these names scans for. */
  function Enabled(wanted: seq<string>, builtin: string -> Pattern): seq<Pattern> {
    PatternsOf(EnabledNames(wanted, PATTERN_ORDER), builtin)
  }

  /** However a detector is set up, it asks for exactly the wanted patterns, SSN first, and so is fit
      to scan any text. */
  lemma DetectorRanked(wanted: seq<string>, builtin: string -> Pattern, text: string)
    requires GoodTable(builtin, text)
    ensures forall n :: (exists p | p in Enabled(wanted, builtin) :: p.name == n) <==>
              n in PATTERN_ORDER && (wanted == [] || n in wanted)
    ensures GoodPatterns(Enabled(wanted, builtin), text)
  {
    var names, ps := EnabledNames(wanted, PATTERN_ORDER), Enabled(wanted, builtin);
    EnabledRanked(wanted, PATTERN_ORDER);
    forall i | 0 <= i < |ps|
      ensures ps[i].name == names[i] && GoodSpans(ps[i].find(text), |text|)
    {
      assert names[i] in PATTERN_ORDER;
    }
    forall n | n in PATTERN_ORDER && (wanted == [] || n in wanted)
      ensures exists p | p in ps :: p.name == n
    {
      var i :| 0 <= i < |names| && names[i] == n;
      assert ps[i] in ps;
    }
  }

  /** A match with the outcome of its validation. */
  datatype Candidate = Candidate(found: Detection, valid: bool)

  function CandidateOf(p: Pattern, text: string, s: Span): Candidate
    requires s.start <= s.end <= |text|
  {
    Candidate(Detection(p.name, s.start, s.end), p.validate(text[s.start..s.end]))
  }

  function Candidates(p: Pattern, text: string, spans: seq<Span>): (cs: seq<Candidate>)
    requires forall i | 0 <= i < |spans| :: spans[i].start <= spans[i].end <= |text|
    ensures |cs| == |spans|
    ensures forall i | 0 <= i < |cs| :: cs[i] == CandidateOf(p, text, spans[i])
  {
    seq(|spans|, i requires 0 <= i < |spans| => CandidateOf(p, text, spans[i]))
  }

  predicate Overlap(a: Detection, b: Detection) {
    a.start < b.end && b.start < a.end
  }

  predicate Free(kept: seq<Detection>, d: Detection) {
    forall i | 0 <= i < |kept| :: !Overlap(kept[i], d)
  }

  /** One candidate: kept when it is valid and touches nothing kept before it. */
  function Consider(kept: seq<Detection>, c: Candidate): seq<Detection> {
    if c.valid && Free(kept, c.found) then kept + [c.found] else kept
  }

  function ConsiderAll(kept: seq<Detection>, cs: seq<Candidate>): seq<Detection>
    decreases |cs|
  {
    if cs == [] then kept else ConsiderAll(Consider(kept, cs[0]), cs[1..])
  }

  /** All patterns in turn, each over the whole text. */
  function ScanFrom(kept: seq<Detection>, ps: seq<Pattern>, text: string): seq<Detection>
    requires GoodPatterns(ps, text)
    decreases |ps|
  {
    if ps == [] then kept
    else ScanFrom(ConsiderAll(kept, Candidates(ps[0], text, ps[0].find(text))), ps[1..], text)
  }

  // ---- What scanning guarantees ----

  ghost predicate Disjoint(ds: seq<Detection>) {
    forall i, j | 0 <= i < j < |ds| :: !Overlap(ds[i], ds[j])
  }

  ghost predicate InBounds(ds: seq<Detection>, n: nat) {
    forall i | 0 <= i < |ds| :: ds[i].start < ds[i].end <= n
  }

  /** The candidate was reported, or yielded to a reported one of strictly higher priority. */
  ghost predicate Accounted(kept: seq<Detection>, c: Candidate) {
    c.valid ==> (c.found in kept || Beaten(kept, c.found))
  }

  ghost predicate Beaten(kept: seq<Detection>, d: Detection) {
    exists e | e in kept :: Overlap(e, d) && PriorityOf(e.pattern) < PriorityOf(d.pattern)
  }

  /** The detection is a match of an enabled pattern that passed validation. */
  ghost predicate Genuine(ps: seq<Pattern>, text: string, d: Detection)
    requires GoodPatterns(ps, text)
  {
    exists i | 0 <= i < |ps| :: Candidate(d, true) in Candidates(ps[i], text, ps[i].find(text))
  }

  lemma AccountedLater(kept: seq<Detection>, more: seq<Detection>, c: Candidate)
    requires Accounted(kept, c) && forall d | d in kept :: d in more
    ensures Accounted(more, c)
  {
  }

  lemma ConsiderKeeps(kept: seq<Detection>, c: Candidate, n: nat)
    requires Disjoint(kept) && InBounds(kept, n) && c.found.start < c.found.end <= n
    ensures Disjoint(Consider(kept, c)) && InBounds(Consider(kept, c), n)
    ensures forall d | d in kept :: d in Consider(kept, c)
  {
  }

  /** What is kept so far never collides with the matches of a pattern still to come, except
      where its priority is higher. */
  ghost predicate Outranks(kept: seq<Detection>, priority: int) {
    forall d | d in kept :: PriorityOf(d.pattern) < priority
  }

  /** kept is what outranked this pattern before it began, plus some of its own earlier matches. */
  ghost predicate Ready(kept: seq<Detection>, p: Pattern, from: nat) {
    forall d | d in kept :: PriorityOf(d.pattern) < PriorityOf(p.name) || (d.pattern == p.name && d.end <= from)
  }

  lemma {:induction false} ConsiderAllMembers(kept: seq<Detection>, cs: seq<Candidate>)
    ensures forall d | d in kept :: d in ConsiderAll(kept, cs)
    ensures forall d | d in ConsiderAll(kept, cs) :: d in kept || Candidate(d, true) in cs
    decreases |cs|
  {
    if cs != [] {
      ConsiderAllMembers(Consider(kept, cs[0]), cs[1..]);
      assert forall c | c in cs[1..] :: c in cs;
    }
  }

  lemma ConsiderAccounts(kept: seq<Detection>, c: Candidate, p: Pattern)
    requires Ready(kept, p, c.found.start) && c.found.pattern == p.name
    ensures Accounted(Consider(kept, c), c)
  {
    if c.valid && !Free(kept, c.found) {
      var i :| 0 <= i < |kept| && Overlap(kept[i], c.found);
      assert kept[i] in kept && Beaten(kept, c.found);
    }
  }

  lemma {:induction false} ConsiderAllKeeps(kept: seq<Detection>, p: Pattern, text: string, spans: seq<Span>, from: nat)
    requires Disjoint(kept) && InBounds(kept, |text|) && GoodSpans(spans, |text|)
    requires Ready(kept, p, from) && (spans != [] ==> from <= spans[0].start)
    ensures var cs := Candidates(p, text, spans);
            var after := ConsiderAll(kept, cs);
            Disjoint(after) && InBounds(after, |text|) && forall c | c in cs :: Accounted(after, c)
    decreases |spans|
  {
    if spans != [] {
      var cs := Candidates(p, text, spans);
      var c, next := cs[0], Consider(kept, cs[0]);
      ConsiderKeeps(kept, c, |text|);
      ConsiderAccounts(kept, c, p);
      assert cs[1..] == Candidates(p, text, spans[1..]);
      ConsiderAllKeeps(next, p, text, spans[1..], spans[0].end);
      ConsiderAllMembers(next, cs[1..]);
      AccountedLater(next, ConsiderAll(kept, cs), c);
      assert forall x | x in cs :: x == c || x in cs[1..];
    }
  }

  lemma {:induction false} ScanKeeps(kept: seq<Detection>, ps: seq<Pattern>, text: string)
    requires GoodPatterns(ps, text) && Disjoint(kept) && InBounds(kept, |text|)
    requires ps != [] ==> Outranks(kept, PriorityOf(ps[0].name))
    ensures var after := ScanFrom(kept, ps, text);
            && Disjoint(after) && InBounds(after, |text|)
            && (forall d | d in kept :: d in after)
            && (forall p, c | p in ps && c in Candidates(p, text, p.find(text)) :: Accounted(after, c))
            && (forall d | d in after :: d in kept || Genuine(ps, text, d))
    decreases |ps|
  {
    if ps != [] {
      var p := ps[0];
      var cs := Candidates(p, text, p.find(text));
      var next := ConsiderAll(kept, cs);
      ConsiderAllKeeps(kept, p, text, p.find(text), 0);
      ConsiderAllMembers(kept, cs);
      ScanKeeps(next, ps[1..], text);
      var after := ScanFrom(kept, ps, text);
      forall q, c | q in ps && c in Candidates(q, text, q.find(text))
        ensures Accounted(after, c)
      {
        if q == p {
          AccountedLater(next, after, c);
        } else {
          assert q in ps[1..];
        }
      }
      forall d | d in after
        ensures d in kept || Genuine(ps, text, d)
      {
        if d in next {
          assert ps[0] == p;
        } else {
          var i :| 0 <= i < |ps[1..]| && Candidate(d, true) in Candidates(ps[1..][i], text, ps[1..][i].find(text));
          assert ps[i + 1] == ps[1..][i];
        }
      }
    }
  }

  // ---- sort.Slice ----

  /** Some order a comparison-based sort may leave: nothing is promised about ties. */
  ghost predicate IsSort(le: (Detection, Detection) -> bool, before: seq<Detection>, after: seq<Detection>) {
    multiset(before) == multiset(after) && SortedBy(le, after)
  }

  ghost predicate SortedBy(le: (Detection, Detection) -> bool, ds: seq<Detection>) {
    forall i, j | 0 <= i < j < |ds| :: le(ds[i], ds[j])
  }

  ghost predicate TotalPreorder(le: (Detection, Detection) -> bool) {
    && (forall a, b :: le(a, b) || le(b, a))
    && (forall a, b, c :: le(a, b) && le(b, c) ==> le(a, c))
  }

  function Insert(le: (Detection, Detection) -> bool, d: Detection, ds: seq<Detection>): seq<Detection> {
    if ds == [] || le(d, ds[0]) then [d] + ds else [ds[0]] + Insert(le, d, ds[1..])
  }

  function Sort(le: (Detection, Detection) -> bool, ds: seq<Detection>): seq<Detection> {
    if ds == [] then [] else Insert(le, ds[0], Sort(le, ds[1..]))
  }

  lemma {:induction false} InsertSorts(le: (Detection, Detection) -> bool, d: Detection, ds: seq<Detection>)
    requires TotalPreorder(le) && SortedBy(le, ds)
    ensures SortedBy(le, Insert(le, d, ds)) && multiset(Insert(le, d, ds)) == multiset(ds) + multiset{d}
  {
    if ds != [] && !le(d, ds[0]) {
      SortedTail(le, ds);
      InsertSorts(le, d, ds[1..]);
      assert le(ds[0], d);
      SortedCons(le, ds[0], Insert(le, d, ds[1..]));
      assert ds == [ds[0]] + ds[1..];
    } else {
      if ds != [] { HeadIsLeast(le, d, ds); }
      SortedCons(le, d, ds);
    }
  }

  lemma SortedTail(le: (Detection, Detection) -> bool, ds: seq<Detection>)
    requires SortedBy(le, ds) && ds != []
    ensures SortedBy(le, ds[1..]) && forall x | x in multiset(ds[1..]) :: le(ds[0], x)
  {
    forall x | x in multiset(ds[1..])
      ensures le(ds[0], x)
    {
      var i := IndexIn(ds[1..], x);
      assert le(ds[0], ds[i + 1]);
    }
  }

  lemma HeadIsLeast(le: (Detection, Detection) -> bool, d: Detection, ds: seq<Detection>)
    requires TotalPreorder(le) && SortedBy(le, ds) && ds != [] && le(d, ds[0])
    ensures forall x | x in multiset(ds) :: le(d, x)
  {
    forall x | x in multiset(ds)
      ensures le(d, x)
    {
      var i := IndexIn(ds, x);
      if i > 0 { assert le(ds[0], ds[i]); }
    }
  }

  lemma SortedCons(le: (Detection, Detection) -> bool, d: Detection, ds: seq<Detection>)
    requires SortedBy(le, ds) && forall x | x in multiset(ds) :: le(d, x)
    ensures SortedBy(le, [d] + ds)
  {
    forall i, j | 0 <= i < j < |[d] + ds|
      ensures le(([d] + ds)[i], ([d] + ds)[j])
    {
      assert ([d] + ds)[j] == ds[j - 1] && ds[j - 1] in multiset(ds);
      if i > 0 { assert ([d] + ds)[i] == ds[i - 1]; }
    }
  }

  lemma {:induction false} SortSorts(le: (Detection, Detection) -> bool, ds: seq<Detection>)
    requires TotalPreorder(le)
    ensures IsSort(le, ds, Sort(le, ds))
  {
    if ds != [] {
      SortSorts(le, ds[1..]);
      InsertSorts(le, ds[0], Sort(le, ds[1..]));
      assert ds == [ds[0]] + ds[1..];
    }
  }

  predicate ByStart(a: Detection, b: Detection) {
    a.start <= b.start
  }

  // ---- Detector.Scan ----

  ghost predicate Covered(ds: seq<Detection>, i: nat) {
    exists k | 0 <= k < |ds| :: ds[k].start <= i < ds[k].end
  }

  /** Spans in bounds, sorted and pairwise disjoint; every one a validated match; and every
      validated match is either reported or overlaps a reported one of higher priority. */
  ghost predicate Correct(ps: seq<Pattern>, text: string, ds: seq<Detection>)
    requires GoodPatterns(ps, text)
  {
    && InBounds(ds, |text|)
    && (forall i, j | 0 <= i < j < |ds| :: ds[i].end <= ds[j].start)
    && (forall d | d in ds :: Genuine(ps, text, d))
    && (forall p, c | p in ps && c in Candidates(p, text, p.find(text)) :: Accounted(ds, c))
  }

  lemma SortedCorrect(ps: seq<Pattern>, text: string, ds: seq<Detection>)
    requires GoodPatterns(ps, text) && IsSort(ByStart, ScanFrom([], ps, text), ds)
    ensures Correct(ps, text, ds)
  {
    var raw := ScanFrom([], ps, text);
    ScanKeeps([], ps, text);
    SameMembers(raw, ds);
    SortedDisjoint(raw, ds);
    forall p, c | p in ps && c in Candidates(p, text, p.find(text))
      ensures Accounted(ds, c)
    {
      AccountedLater(raw, ds, c);
    }
  }

  lemma SameMembers<T>(a: seq<T>, b: seq<T>)
    requires multiset(a) == multiset(b)
    ensures forall x :: x in a <==> x in b
  {
    forall x
      ensures x in a <==> x in b
    {
      assert x in a <==> x in multiset(a);
    }
  }

  /** A permutation of disjoint spans, sorted by start, runs left to right. */
  lemma SortedDisjoint(raw: seq<Detection>, ds: seq<Detection>)
    requires multiset(raw) == multiset(ds) && Disjoint(raw) && SortedBy(ByStart, ds)
    requires forall d | d in raw :: d.start < d.end
    ensures forall i, j | 0 <= i < j < |ds| :: ds[i].end <= ds[j].start
  {
    SameMembers(raw, ds);
    forall i, j | 0 <= i < j < |ds|
      ensures ds[i].end <= ds[j].start
    {
      assert ByStart(ds[i], ds[j]);
      TwoOf(raw, ds, i, j);
    }
  }

  /** Two places of a permutation of disjoint spans hold disjoint spans. */
  lemma TwoOf(raw: seq<Detection>, ds: seq<Detection>, i: nat, j: nat)
    requires multiset(raw) == multiset(ds) && Disjoint(raw) && i < j < |ds|
    requires forall d | d in raw :: d.start < d.end
    ensures !Overlap(ds[i], ds[j])
  {
    if ds[i] == ds[j] {
      Twice(ds, i, j);
      TwiceMeansTwoPlaces(raw, ds[i]);
    } else {
      assert ds[i] in multiset(raw) && ds[j] in multiset(raw);
      var p :| 0 <= p < |raw| && raw[p] == ds[i];
      var q :| 0 <= q < |raw| && raw[q] == ds[j];
    }
  }

  lemma Twice(ds: seq<Detection>, i: nat, j: nat)
    requires i < j < |ds| && ds[i] == ds[j]
    ensures multiset(ds)[ds[i]] >= 2
  {
    assert ds == ds[..j] + [ds[j]] + ds[j + 1..];
    assert ds[..j][i] in multiset(ds[..j]);
  }

  lemma {:induction false} TwiceMeansTwoPlaces(raw: seq<Detection>, d: Detection)
    requires multiset(raw)[d] >= 2 && Disjoint(raw)
    ensures !Overlap(d, d)
  {
    assert raw == [raw[0]] + raw[1..];
    if raw[0] == d {
      assert d in multiset(raw[1..]);
      var q :| 0 <= q < |raw[1..]| && raw[1..][q] == d;
      assert raw[q + 1] == d;
    } else {
      TwiceMeansTwoPlaces(raw[1..], d);
    }
  }

  class Detector {
    const enabled: seq<Pattern>

    /** NewDetector. */
    constructor (wanted: seq<string>, builtin: string -> Pattern)
      ensures enabled == Enabled(wanted, builtin)
    {
      var ps := Select(wanted, PATTERN_ORDER, builtin);
      enabled := ps;
    }

    static method Select(wanted: seq<string>, order: seq<string>, builtin: string -> Pattern) returns (ps: seq<Pattern>)
      ensures ps == PatternsOf(EnabledNames(wanted, order), builtin)
    {
      ps := [];
      ghost var names: seq<string> := [];
      assert order[0..] == order;
      Unit(EnabledNames(wanted, order));
      for k := 0 to |order|
        invariant EnabledNames(wanted, order) == names + EnabledNames(wanted, order[k..])
        invariant ps == PatternsOf(names, builtin)
      {
        assert order[k..][1..] == order[k + 1..];
        if |wanted| == 0 || order[k] in wanted {
          PatternsMore(names, order[k], builtin);
          Assoc(names, [order[k]], EnabledNames(wanted, order[k + 1..]));
          ps := ps + [builtin(order[k])];
          names := names + [order[k]];
        } else {
          Unit(EnabledNames(wanted, order[k + 1..]));
        }
      }
      Unit(names);
    }

    /** Whether no byte of the span is claimed. */
    method Unclaimed(claimed: array<bool>, d: Detection, ghost kept: seq<Detection>) returns (free: bool)
      requires d.start < d.end <= claimed.Length && InBounds(kept, claimed.Length)
      requires forall i | 0 <= i < claimed.Length :: claimed[i] <==> Covered(kept, i)
      ensures free <==> Free(kept, d)
    {
      free := true;
      for i := d.start to d.end
        invariant free ==> forall k | d.start <= k < i :: !claimed[k]
        invariant !free ==> !Free(kept, d)
      {
        if claimed[i] {
          ghost var k :| 0 <= k < |kept| && kept[k].start <= i < kept[k].end;
          assert Overlap(kept[k], d);
          free := false;
          break;
        }
      }
      if free {
        forall k | 0 <= k < |kept|
          ensures !Overlap(kept[k], d)
        {
          if Overlap(kept[k], d) { OverlapCovers(kept, k, d); }
        }
      }
    }

    method Claim(claimed: array<bool>, d: Detection, ghost kept: seq<Detection>)
      requires d.start < d.end <= claimed.Length
      requires forall i | 0 <= i < claimed.Length :: claimed[i] <==> Covered(kept, i)
      modifies claimed
      ensures forall i | 0 <= i < claimed.Length :: claimed[i] <==> Covered(kept + [d], i)
    {
      for i := d.start to d.end
        invariant forall k | 0 <= k < claimed.Length :: claimed[k] <==> old(claimed[k]) || d.start <= k < i
      {
        claimed[i] := true;
      }
      forall i | 0 <= i < claimed.Length
        ensures claimed[i] <==> Covered(kept + [d], i)
      {
        CoveredAppend(kept, d, i);
      }
    }

    method ScanPattern(pat: Pattern, text: string, claimed: array<bool>, results: seq<Detection>)
      returns (r: seq<Detection>)
      requires claimed.Length == |text| && GoodSpans(pat.find(text), |text|) && InBounds(results, |text|)
      requires forall i | 0 <= i < claimed.Length :: claimed[i] <==> Covered(results, i)
      modifies claimed
      ensures r == ConsiderAll(results, Candidates(pat, text, pat.find(text))) && InBounds(r, |text|)
      ensures forall i | 0 <= i < claimed.Length :: claimed[i] <==> Covered(r, i)
    {
      var matches := pat.find(text);
      ghost var cs := Candidates(pat, text, matches);
      r := results;
      for k := 0 to |matches|
        invariant ConsiderAll(r, cs[k..]) == ConsiderAll(results, cs)
        invariant InBounds(r, |text|)
        invariant forall i | 0 <= i < claimed.Length :: claimed[i] <==> Covered(r, i)
      {
        var d := Detection(pat.name, matches[k].start, matches[k].end);
        assert cs[k..][0] == cs[k] && cs[k..][1..] == cs[k + 1..];
        var free := Unclaimed(claimed, d, r);
        if !free { continue; }
        if !pat.validate(text[d.start..d.end]) { continue; }
        Claim(claimed, d, r);
        r := r + [d];
      }
    }

    method Scan(text: string) returns (results: seq<Detection>)
      requires GoodPatterns(enabled, text)
      ensures IsSort(ByStart, ScanFrom([], enabled, text), results)
      ensures Correct(enabled, text, results)
    {
      var claimed := new bool[|text|](_ => false);
      results := [];
      for k := 0 to |enabled|
        invariant claimed.Length == |text| && InBounds(results, |text|)
        invariant forall i | 0 <= i < claimed.Length :: claimed[i] <==> Covered(results, i)
        invariant ScanFrom(results, enabled[k..], text) == ScanFrom([], enabled, text)
      {
        assert enabled[k..][1..] == enabled[k + 1..];
        results := ScanPattern(enabled[k], text, claimed, results);
      }
      SortSorts(ByStart, results);
      results := Sort(ByStart, results);
      SortedCorrect(enabled, text, results);
    }
  }

  lemma OverlapCovers(kept: seq<Detection>, k: nat, d: Detection)
    requires k < |kept| && Overlap(kept[k], d) && d.start < d.end && kept[k].start < kept[k].end
    ensures exists i | d.start <= i < d.end :: Covered(kept, i)
  {
    var i := if kept[k].start <= d.start then d.start else kept[k].start;
    assert Covered(kept, i);
  }

  lemma CoveredAppend(ds: seq<Detection>, d: Detection, i: nat)
    ensures Covered(ds + [d], i) <==> Covered(ds, i) || d.start <= i < d.end
  {
    if Covered(ds, i) {
      var k :| 0 <= k < |ds| && ds[k].start <= i < ds[k].end;
      assert (ds + [d])[k] == ds[k];
    }
    if d.start <= i < d.end {
      assert (ds + [d])[|ds|] == d;
    }
  }
}
