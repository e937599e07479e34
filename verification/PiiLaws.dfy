// internal/pii: scanning said of the patterns' matches alone, and redaction said byte by byte.
module PiiLaws {
  import opened PiiScan
  import opened PiiRedact

  // ---- Scanning ----

  /** The pattern matched here and the match passed its test. */
  ghost predicate IsMatch(p: Pattern, text: string, d: Detection) {
    d.pattern == p.name && d.start <= d.end <= |text| && Span(d.start, d.end) in p.find(text)
    && p.validate(text[d.start..d.end])
  }

  ghost predicate ShareByte(d: Detection, e: Detection) {
    exists i: nat :: Inside(i, d) && Inside(i, e)
  }

  ghost predicate Inside(i: nat, d: Detection) {
    d.start <= i < d.end
  }

  /** Where the pattern comes in the table. */
  function Place(name: string): nat {
    match name
    case "ssn" => 0
    case "credit_card" => 1
    case "email" => 2
    case "phone" => 3
    case "ip_address" => 4
    case _ => 5
  }

  /** A match of a wanted built-in pattern, built in being a place before the fifth. */
  ghost predicate IsWanted(place: string -> nat, wanted: seq<string>, builtin: string -> Pattern, text: string,
      d: Detection)
  {
    place(d.pattern) < 5 && (wanted == [] || d.pattern in wanted) && IsMatch(builtin(d.pattern), text, d)
  }

  /** A reported match of an earlier pattern on one of its bytes. */
  ghost predicate Yields(place: string -> nat, ds: seq<Detection>, d: Detection) {
    exists e | e in ds :: ShareByte(e, d) && place(e.pattern) < place(d.pattern)
  }

  lemma MatchIsCandidate(p: Pattern, text: string, d: Detection)
    requires GoodSpans(p.find(text), |text|)
    ensures IsMatch(p, text, d) <==> Candidate(d, true) in Candidates(p, text, p.find(text))
  {
    var spans, cs := p.find(text), Candidates(p, text, p.find(text));
    if IsMatch(p, text, d) {
      var i :| 0 <= i < |spans| && spans[i] == Span(d.start, d.end);
      assert cs[i] == Candidate(d, true);
    }
    if Candidate(d, true) in cs {
      var i :| 0 <= i < |cs| && cs[i] == Candidate(d, true);
      assert spans[i] in spans && spans[i] == Span(d.start, d.end);
    }
  }

  /** The places are those of the table. */
  ghost predicate Places(place: string -> nat) {
    && (forall n :: place(n) < 5 <==> n in PATTERN_ORDER)
    && (forall a, b :: PriorityOf(a) < PriorityOf(b) ==> place(a) < place(b))
  }

  lemma TablePlaces()
    ensures Places(Place)
  {
  }

  /** Everything reported is a match of a wanted pattern that passed its test; and each such match is reported
      unless one of a pattern earlier in the table was reported on one of its bytes. */
  lemma ScanFields(wanted: seq<string>, builtin: string -> Pattern, text: string, ds: seq<Detection>)
    requires GoodTable(builtin, text)
    requires GoodPatterns(Enabled(wanted, builtin), text)
    requires IsSort(ByStart, ScanFrom([], Enabled(wanted, builtin), text), ds)
    ensures forall d | d in ds :: IsWanted(Place, wanted, builtin, text, d)
    ensures forall d | IsWanted(Place, wanted, builtin, text, d) :: d in ds || Yields(Place, ds, d)
  {
    SortedCorrect(Enabled(wanted, builtin), text, ds);
    TablePlaces();
    CorrectFields(Place, wanted, builtin, text, ds);
  }

  lemma CorrectFields(place: string -> nat, wanted: seq<string>, builtin: string -> Pattern, text: string,
      ds: seq<Detection>)
    requires GoodTable(builtin, text) && Places(place)
    requires GoodPatterns(Enabled(wanted, builtin), text) && Correct(Enabled(wanted, builtin), text, ds)
    ensures forall d | d in ds :: IsWanted(place, wanted, builtin, text, d)
    ensures forall d | IsWanted(place, wanted, builtin, text, d) :: d in ds || Yields(place, ds, d)
  {
    var ps := Enabled(wanted, builtin);
    forall d | d in ds
      ensures IsWanted(place, wanted, builtin, text, d)
    {
      assert Genuine(ps, text, d);
      var i :| 0 <= i < |ps| && Candidate(d, true) in Candidates(ps[i], text, ps[i].find(text));
      WantedPattern(place, wanted, builtin, i);
      MatchIsCandidate(ps[i], text, d);
    }
    forall d | IsWanted(place, wanted, builtin, text, d) && d !in ds
      ensures Yields(place, ds, d)
    {
      var p := PatternWanted(place, wanted, builtin, d.pattern);
      MatchIsCandidate(p, text, d);
      assert Accounted(ds, Candidate(d, true));
      BeatenYields(place, ds, d);
    }
  }

  lemma BeatenYields(place: string -> nat, ds: seq<Detection>, d: Detection)
    requires Places(place) && Beaten(ds, d) && d.start < d.end && forall e | e in ds :: e.start < e.end
    ensures Yields(place, ds, d)
  {
    var e :| e in ds && Overlap(e, d) && PriorityOf(e.pattern) < PriorityOf(d.pattern);
    var i := if e.start < d.start then d.start else e.start;
    assert Inside(i, e) && Inside(i, d);
  }

  lemma WantedPattern(place: string -> nat, wanted: seq<string>, builtin: string -> Pattern, i: nat)
    requires Places(place) && i < |Enabled(wanted, builtin)|
    requires forall n | n in PATTERN_ORDER :: builtin(n).name == n
    ensures var p := Enabled(wanted, builtin)[i];
            place(p.name) < 5 && (wanted == [] || p.name in wanted) && p == builtin(p.name)
  {
    var names := EnabledNames(wanted, PATTERN_ORDER);
    EnabledRanked(wanted, PATTERN_ORDER);
    assert names[i] in names;
  }

  lemma PatternWanted(place: string -> nat, wanted: seq<string>, builtin: string -> Pattern, n: string)
    returns (p: Pattern)
    requires Places(place) && place(n) < 5 && (wanted == [] || n in wanted)
    ensures p in Enabled(wanted, builtin) && p == builtin(n)
  {
    var names := EnabledNames(wanted, PATTERN_ORDER);
    EnabledRanked(wanted, PATTERN_ORDER);
    var i :| 0 <= i < |names| && names[i] == n;
    p := Enabled(wanted, builtin)[i];
  }

  // ---- Redaction ----

  /** What stands for a match of the pattern in the redacted text. */
  function Tag(pattern: string): string {
    match pattern
    case "email" => "[EMAIL]"
    case "phone" => "[PHONE]"
    case "ssn" => "[SSN]"
    case "credit_card" => "[CREDIT_CARD]"
    case "ip_address" => "[IP_ADDRESS]"
    case _ => "[PII]"
  }

  /** The spans to replace and what replaces them, left to right. */
  datatype Marks = End | Mark(start: nat, end: nat, tag: string, rest: Marks)

  function MarksOf(ds: seq<Detection>): Marks {
    if ds == [] then End else Mark(ds[0].start, ds[0].end, Tag(ds[0].pattern), MarksOf(ds[1..]))
  }

  ghost predicate InRow(m: Marks, from: nat, n: nat) {
    if m.End? then from <= n else from <= m.start < m.end <= n && InRow(m.rest, m.end, n)
  }

  /** By how much the marks ending no later than i move what follows them. */
  function Shift(m: Marks, i: nat): int {
    if m.End? then 0 else (if m.end <= i then |m.tag| - (m.end - m.start) else 0) + Shift(m.rest, i)
  }

  /** The gaps and the tags in turn. */
  function Fill(text: string, m: Marks, from: nat): string
    requires InRow(m, from, |text|)
  {
    if m.End? then text[from..] else text[from..m.start] + m.tag + Fill(text, m.rest, m.end)
  }

  predicate ByteAt(s: string, p: int, c: char) {
    0 <= p < |s| && s[p] == c
  }

  lemma ByteBefore(text: string, from: nat, to: nat, i: nat, t: string, b: string)
    requires from <= i < to <= |text|
    ensures ByteAt(text[from..to] + t + b, i - from, text[i])
  {
  }

  lemma ByteWithin(a: string, t: string, b: string, j: nat)
    requires j < |t|
    ensures ByteAt(a + t + b, |a| + j, t[j])
  {
  }

  lemma ByteAfter(a: string, b: string, p: int, c: char)
    requires ByteAt(b, p, c)
    ensures ByteAt(a + b, |a| + p, c)
  {
  }

  lemma {:induction false} ShiftNone(m: Marks, from: nat, n: nat, i: nat)
    requires InRow(m, from, n) && (m.Mark? ==> i <= m.start)
    ensures Shift(m, i) == 0
  {
    if m.Mark? {
      ShiftNone(m.rest, m.end, n, i);
    }
  }

  lemma {:induction false} FillLength(text: string, m: Marks, from: nat)
    requires InRow(m, from, |text|)
    ensures |Fill(text, m, from)| == |text| - from + Shift(m, |text|)
  {
    if m.Mark? {
      FillLength(text, m.rest, m.end);
    }
  }

  ghost predicate Has(m: Marks, start: nat, tag: string) {
    m.Mark? && ((m.start == start && m.tag == tag) || Has(m.rest, start, tag))
  }

  lemma {:induction false} HasAfter(m: Marks, from: nat, n: nat, start: nat, tag: string)
    requires InRow(m, from, n) && Has(m, start, tag)
    ensures from <= start
  {
    if m.start != start || m.tag != tag {
      HasAfter(m.rest, m.end, n, start, tag);
    }
  }

  /** A tag stands where its mark began, moved by the marks before it. */
  lemma {:induction false} FillTags(text: string, m: Marks, from: nat, start: nat, tag: string, j: nat)
    requires InRow(m, from, |text|) && Has(m, start, tag) && j < |tag|
    ensures ByteAt(Fill(text, m, from), start - from + Shift(m, start) + j, tag[j])
  {
    var gap, more := text[from..m.start], Fill(text, m.rest, m.end);
    if m.start == start && m.tag == tag {
      ShiftNone(m, from, |text|, start);
      ByteWithin(gap, tag, more, j);
    } else {
      HasAfter(m.rest, m.end, |text|, start, tag);
      FillTags(text, m.rest, m.end, start, tag, j);
      ByteAfter(gap + m.tag, more, start - m.end + Shift(m.rest, start) + j, tag[j]);
    }
  }

  ghost predicate Outside(m: Marks, i: nat) {
    m.Mark? ==> !(m.start <= i < m.end) && Outside(m.rest, i)
  }

  /** A byte outside the marks is kept, moved by the marks before it. */
  lemma {:induction false} FillKeeps(text: string, m: Marks, from: nat, i: nat)
    requires InRow(m, from, |text|) && Outside(m, i) && from <= i < |text|
    ensures ByteAt(Fill(text, m, from), i - from + Shift(m, i), text[i])
  {
    if m.Mark? {
      var gap, more := text[from..m.start], Fill(text, m.rest, m.end);
      if i < m.start {
        ShiftNone(m, from, |text|, i);
        ByteBefore(text, from, m.start, i, m.tag, more);
      } else {
        FillKeeps(text, m.rest, m.end, i);
        ByteAfter(gap + m.tag, more, i - m.end + Shift(m.rest, i), text[i]);
      }
    }
  }

  // ---- From detections to marks ----

  lemma {:induction false} MarksInRow(ds: seq<Detection>, from: nat, n: nat)
    requires Row(ds, from) && from <= n && forall d | d in ds :: d.start < d.end <= n
    ensures InRow(MarksOf(ds), from, n)
    decreases |ds|
  {
    if ds != [] {
      MarksInRow(ds[1..], ds[0].end, n);
    }
  }

  lemma SameTag(pattern: string)
    ensures Placeholder(pattern) == Tag(pattern)
  {
  }

  lemma {:induction false} ForwardIsFill(text: string, ds: seq<Detection>, from: nat)
    requires from <= |text| && Row(ds, from) && (ds != [] ==> ds[|ds| - 1].end <= |text|)
    requires InRow(MarksOf(ds), from, |text|)
    ensures Forward(text, ds, from) == Fill(text, MarksOf(ds), from)
    decreases |ds|
  {
    if ds != [] {
      RowEnds(ds, from);
      ForwardIsFill(text, ds[1..], ds[0].end);
      SameTag(ds[0].pattern);
    }
  }

  lemma {:induction false} MarksHave(ds: seq<Detection>, k: nat)
    requires k < |ds|
    ensures Has(MarksOf(ds), ds[k].start, Tag(ds[k].pattern))
    decreases |ds|
  {
    if k > 0 {
      MarksHave(ds[1..], k - 1);
    }
  }

  lemma {:induction false} MarksOutside(ds: seq<Detection>, i: nat)
    requires forall d | d in ds :: !Inside(i, d)
    ensures Outside(MarksOf(ds), i)
    decreases |ds|
  {
    if ds != [] {
      assert !Inside(i, ds[0]);
      MarksOutside(ds[1..], i);
    }
  }

  lemma RedactedIsFill(ps: seq<Pattern>, text: string, ds: seq<Detection>, r: string)
    requires GoodPatterns(ps, text) && Correct(ps, text, ds) && Redacts(text, ds, r)
    ensures InRow(MarksOf(ds), 0, |text|) && r == Fill(text, MarksOf(ds), 0)
  {
    RedactScan(ps, text, ds, r);
    MarksInRow(ds, 0, |text|);
    ForwardIsFill(text, ds, 0);
  }

  /** The redacted scan has each placeholder where its detection began, moved by what came before. */
  lemma RedactedTags(ps: seq<Pattern>, text: string, ds: seq<Detection>, r: string, k: nat, j: nat)
    requires GoodPatterns(ps, text) && Correct(ps, text, ds) && Redacts(text, ds, r)
    requires k < |ds| && j < |Tag(ds[k].pattern)|
    ensures ByteAt(r, ds[k].start + Shift(MarksOf(ds), ds[k].start) + j, Tag(ds[k].pattern)[j])
  {
    RedactedIsFill(ps, text, ds, r);
    MarksHave(ds, k);
    FillTags(text, MarksOf(ds), 0, ds[k].start, Tag(ds[k].pattern), j);
  }

  /** It has every byte outside the detections, moved likewise. */
  lemma RedactedKeeps(ps: seq<Pattern>, text: string, ds: seq<Detection>, r: string, i: nat)
    requires GoodPatterns(ps, text) && Correct(ps, text, ds) && Redacts(text, ds, r)
    requires i < |text| && forall d | d in ds :: !Inside(i, d)
    ensures ByteAt(r, i + Shift(MarksOf(ds), i), text[i])
  {
    RedactedIsFill(ps, text, ds, r);
    MarksOutside(ds, i);
    FillKeeps(text, MarksOf(ds), 0, i);
  }

  /** And it has nothing else: that is its length. */
  lemma RedactedLength(ps: seq<Pattern>, text: string, ds: seq<Detection>, r: string)
    requires GoodPatterns(ps, text) && Correct(ps, text, ds) && Redacts(text, ds, r)
    ensures |r| == |text| + Shift(MarksOf(ds), |text|)
  {
    RedactedIsFill(ps, text, ds, r);
    FillLength(text, MarksOf(ds), 0);
  }
}
