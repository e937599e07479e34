// internal/pii/redactor.go: replacing detected spans by placeholders.
module PiiRedact {
  import opened Sequences
  import opened PiiScan

  function Placeholder(pattern: string): string {
    if pattern == "email" then "[EMAIL]"
    else if pattern == "phone" then "[PHONE]"
    else if pattern == "ssn" then "[SSN]"
    else if pattern == "credit_card" then "[CREDIT_CARD]"
    else if pattern == "ip_address" then "[IP_ADDRESS]"
    else "[PII]"
  }

  // ---- Overlap resolution ----

  /** Earlier start first; at one start the longer; at one span the higher priority. */
  predicate ByClaim(a: Detection, b: Detection) {
    if a.start != b.start then a.start < b.start
    else if a.end != b.end then a.end > b.end
    else PriorityOf(a.pattern) <= PriorityOf(b.pattern)
  }

  predicate ByStartDescending(a: Detection, b: Detection) {
    a.start >= b.start
  }

  /** Keeps each detection that starts no earlier than the last kept one ends. */
  function Sweep(sorted: seq<Detection>, lastEnd: nat): seq<Detection>
    decreases |sorted|
  {
    if sorted == [] then []
    else if sorted[0].start >= lastEnd then [sorted[0]] + Sweep(sorted[1..], sorted[0].end)
    else Sweep(sorted[1..], lastEnd)
  }

  /** Left to right, each ending before the next begins, from `from` on. */
  ghost predicate Row(ds: seq<Detection>, from: nat) {
    ds != [] ==> from <= ds[0].start <= ds[0].end && Row(ds[1..], ds[0].end)
  }

  ghost predicate NonEmpty(ds: seq<Detection>, n: nat) {
    forall d | d in ds :: d.start < d.end <= n
  }

  lemma {:induction false} SweepIsRow(sorted: seq<Detection>, lastEnd: nat)
    requires forall d | d in sorted :: d.start <= d.end
    ensures Row(Sweep(sorted, lastEnd), lastEnd)
    ensures forall d | d in Sweep(sorted, lastEnd) :: d in sorted
    decreases |sorted|
  {
    if sorted != [] {
      SweepIsRow(sorted[1..], if sorted[0].start >= lastEnd then sorted[0].end else lastEnd);
      Tail(sorted[0], Sweep(sorted[1..], sorted[0].end));
    }
  }

  /** A row loses nothing to the sweep. */
  lemma {:induction false} SweepKeepsRow(ds: seq<Detection>, lastEnd: nat)
    requires Row(ds, lastEnd)
    ensures Sweep(ds, lastEnd) == ds
    decreases |ds|
  {
    if ds != [] {
      SweepKeepsRow(ds[1..], ds[0].end);
      assert ds == [ds[0]] + ds[1..];
    }
  }

  /** Whatever the sweep drops starts inside something it keeps that starts no later: the
      earlier start wins, whatever the lengths. */
  lemma {:induction false} DroppedStartsInside(sorted: seq<Detection>, lastEnd: nat, d: Detection)
    requires SortedBy(ByClaim, sorted) && d in sorted && d !in Sweep(sorted, lastEnd)
    ensures d.start < lastEnd || exists e | e in Sweep(sorted, lastEnd) :: ByClaim(e, d) && e.start <= d.start < e.end
    decreases |sorted|
  {
    var head, rest := sorted[0], sorted[1..];
    if head.start >= lastEnd {
      var tail := Sweep(rest, head.end);
      assert Sweep(sorted, lastEnd) == [head] + tail;
      assert d != head && d in rest;
      assert forall e | e in tail :: e in Sweep(sorted, lastEnd);
      DroppedStartsInside(rest, head.end, d);
      if d.start < head.end {
        var i :| 0 <= i < |rest| && rest[i] == d;
        assert ByClaim(sorted[0], sorted[i + 1]);
        assert head in Sweep(sorted, lastEnd);
      }
    } else if d != head {
      assert d in rest;
      DroppedStartsInside(rest, lastEnd, d);
    }
  }

  /** The documented rule, that the longer of two overlapping detections wins, is not what
      happens when the shorter one starts first. */
  lemma LongerMayLose()
    ensures var short, long := Detection("ssn", 0, 5), Detection("email", 3, 20);
            Overlap(short, long) && SortedBy(ByClaim, [short, long]) && Sweep([short, long], 0) == [short]
  {
    var short, long := Detection("ssn", 0, 5), Detection("email", 3, 20);
    SweepPair(short, long);
  }

  /** Two detections, the second starting inside the first: only the first survives. */
  lemma SweepPair(a: Detection, b: Detection)
    requires b.start < a.end
    ensures Sweep([a, b], 0) == [a]
  {
    assert [a, b][1..] == [b] && [b][1..] == [];
    assert Sweep([b], a.end) == Sweep([], a.end);
  }

  /** Of two overlapping detections alone, the longer is the one kept exactly when it does not
      start after the other. */
  lemma LongerWinsExactly(long: Detection, other: Detection, sorted: seq<Detection>)
    requires Overlap(long, other) && long.end - long.start > other.end - other.start > 0
    requires IsSort(ByClaim, [long, other], sorted)
    ensures Sweep(sorted, 0) == [long] <==> long.start <= other.start
  {
    assert multiset(sorted) == multiset{long, other};
    TwoElements(sorted, long, other);
    var a, b := sorted[0], sorted[1];
    assert ByClaim(sorted[0], sorted[1]);
    SweepPair(a, b);
  }

  // The documented rule, for any list.

  /** The longer beats; at one length the higher priority. */
  predicate Beats(a: Detection, b: Detection) {
    if a.end - a.start != b.end - b.start then a.end - a.start > b.end - b.start
    else PriorityOf(a.pattern) <= PriorityOf(b.pattern)
  }

  /** Whatever is not kept overlaps something kept that beats it. */
  ghost predicate Documented(ds: seq<Detection>, kept: seq<Detection>) {
    forall d | d in ds && d !in kept :: exists e | e in kept :: Overlap(e, d) && Beats(e, d)
  }

  /** Of overlapping detections the earlier beats the later. */
  ghost predicate EarlierBeats(ds: seq<Detection>) {
    forall a, b | a in ds && b in ds && Overlap(a, b) && a.start < b.start :: Beats(a, b)
  }

  lemma SweepDocumented(ds: seq<Detection>, sorted: seq<Detection>)
    requires IsSort(ByClaim, ds, sorted) && EarlierBeats(ds) && forall d | d in ds :: d.start < d.end
    ensures Documented(ds, Sweep(sorted, 0))
  {
    var kept := Sweep(sorted, 0);
    SameMembers(ds, sorted);
    SweepIsRow(sorted, 0);
    forall d | d in ds && d !in kept
      ensures exists e | e in kept :: Overlap(e, d) && Beats(e, d)
    {
      DroppedStartsInside(sorted, 0, d);
      var e :| e in kept && ByClaim(e, d) && e.start <= d.start < e.end;
      assert e in ds && Overlap(e, d);
      assert Beats(e, d);
    }
  }

  /** Overlap resolution does what is documented on these detections and on every selection of them,
      in any order, exactly when of any two that overlap the earlier one beats the later. */
  lemma DocumentedExactly(ds: seq<Detection>)
    requires forall d | d in ds :: d.start < d.end
    ensures (forall part, sorted | multiset(part) <= multiset(ds) && IsSort(ByClaim, part, sorted) ::
               Documented(part, Sweep(sorted, 0)))
            <==> EarlierBeats(ds)
  {
    if EarlierBeats(ds) {
      forall part, sorted | multiset(part) <= multiset(ds) && IsSort(ByClaim, part, sorted)
        ensures Documented(part, Sweep(sorted, 0))
      {
        forall d | d in part
          ensures d in ds
        {
          assert d in multiset(part);
        }
        SweepDocumented(part, sorted);
      }
    } else {
      var a, b :| a in ds && b in ds && Overlap(a, b) && a.start < b.start && !Beats(a, b);
      PairUndocumented(a, b);
      PairWithin(ds, a, b);
      assert multiset([a, b]) <= multiset(ds) && IsSort(ByClaim, [a, b], [a, b]);
    }
  }

  lemma PairUndocumented(a: Detection, b: Detection)
    requires Overlap(a, b) && a.start < b.start && !Beats(a, b)
    ensures SortedBy(ByClaim, [a, b]) && !Documented([a, b], Sweep([a, b], 0))
  {
    SweepPair(a, b);
    assert b in [a, b] && b !in [a];
  }

  lemma PairWithin(ds: seq<Detection>, a: Detection, b: Detection)
    requires a in ds && b in ds && a != b
    ensures multiset([a, b]) <= multiset(ds)
  {
    assert a in multiset(ds) && b in multiset(ds);
    assert multiset([a, b]) == multiset{a, b};
  }

  lemma TwoElements<T>(s: seq<T>, x: T, y: T)
    requires multiset(s) == multiset{x, y}
    ensures s == [x, y] || s == [y, x]
  {
    assert |s| == |multiset(s)| == 2;
    assert s == [s[0], s[1]];
    assert s[0] in multiset(s) && s[1] in multiset(s);
    assert multiset(s) == multiset{s[0], s[1]};
    if s[0] == x {
      assert multiset(s) - multiset{x} == multiset{s[1]} == multiset{y};
    } else {
      assert multiset(s) - multiset{y} == multiset{s[1]} == multiset{x};
    }
  }

  // ---- Splicing ----

  /** Gap, placeholder, gap, placeholder, ..., last gap. */
  function Forward(text: string, ds: seq<Detection>, from: nat): string
    requires from <= |text| && Row(ds, from) && (ds != [] ==> ds[|ds| - 1].end <= |text|)
    decreases |ds|
  {
    if ds == [] then text[from..]
    else
      RowEnds(ds, from);
      text[from..ds[0].start] + Placeholder(ds[0].pattern) + Forward(text, ds[1..], ds[0].end)
  }

  lemma {:induction false} RowEnds(ds: seq<Detection>, from: nat)
    requires Row(ds, from) && ds != []
    ensures from <= ds[|ds| - 1].start <= ds[|ds| - 1].end && ds[0].end <= ds[|ds| - 1].end
    ensures |ds| > 1 ==> ds[0].end <= ds[|ds| - 1].start
    decreases |ds|
  {
    if |ds| > 1 {
      RowEnds(ds[1..], ds[0].end);
    }
  }

  /** Replaces one span. */
  function Splice(text: string, d: Detection): string
    requires d.start <= d.end <= |text|
  {
    text[..d.start] + Placeholder(d.pattern) + text[d.end..]
  }

  /** Replaces the spans of a row from the last to the first. */
  function Backward(text: string, ds: seq<Detection>): string
    requires Row(ds, 0) && (ds != [] ==> ds[|ds| - 1].end <= |text|)
    decreases |ds|
  {
    if ds == [] then text
    else
      RowFront(ds, 0);
      RowEnds(ds, 0);
      Backward(Splice(text, ds[|ds| - 1]), ds[..|ds| - 1])
  }

  lemma {:induction false} RowFront(ds: seq<Detection>, from: nat)
    requires Row(ds, from) && ds != []
    ensures Row(ds[..|ds| - 1], from)
    ensures |ds| > 1 ==> ds[|ds| - 2].end <= ds[|ds| - 1].start
    decreases |ds|
  {
    if |ds| > 1 {
      RowFront(ds[1..], ds[0].end);
      assert ds[..|ds| - 1][1..] == ds[1..][..|ds| - 2];
    }
  }

  lemma PrefixSlice(s: string, k: nat, i: nat, j: nat)
    requires i <= j <= k <= |s|
    ensures s[..k][i..j] == s[i..j] && (j == k ==> s[..k][i..] == s[i..j])
  {
  }

  /** Forward, seen from its last placeholder. */
  lemma {:induction false} ForwardLast(text: string, ds: seq<Detection>, from: nat, cut: string)
    requires from <= |text| && Row(ds, from) && ds != [] && ds[|ds| - 1].end <= |text|
    requires ds[|ds| - 1].start <= |text| && cut == text[..ds[|ds| - 1].start]
    ensures var last, front := ds[|ds| - 1], ds[..|ds| - 1];
            && Row(front, from) && from <= |cut| && (front != [] ==> front[|front| - 1].end <= |cut|)
            && Forward(text, ds, from) == Forward(cut, front, from) + Placeholder(last.pattern) + text[last.end..]
    decreases |ds|
  {
    var last, front := ds[|ds| - 1], ds[..|ds| - 1];
    RowFront(ds, from);
    RowEnds(ds, from);
    if |ds| > 1 {
      var d := ds[0];
      ForwardLast(text, ds[1..], d.end, cut);
      assert ds[1..][|ds| - 2] == last && front[1..] == ds[1..][..|ds| - 2];
      RowEnds(front, from);
      PrefixSlice(text, last.start, from, d.start);
      var a, b := text[from..d.start] + Placeholder(d.pattern), Forward(cut, front[1..], d.end);
      Assoc(a, b, Placeholder(last.pattern));
      Assoc(a, b + Placeholder(last.pattern), text[last.end..]);
    } else {
      PrefixSlice(text, last.start, from, last.start);
      assert ds[1..] == [];
    }
  }

  /** Splicing at the front leaves an appended tail alone. */
  lemma {:induction false} BackwardPrefix(a: string, b: string, ds: seq<Detection>)
    requires Row(ds, 0) && (ds != [] ==> ds[|ds| - 1].end <= |a|)
    ensures Backward(a + b, ds) == Backward(a, ds) + b
    decreases |ds|
  {
    if ds != [] {
      var last, front := ds[|ds| - 1], ds[..|ds| - 1];
      RowFront(ds, 0);
      RowEnds(ds, 0);
      assert Splice(a + b, last) == Splice(a, last) + b;
      BackwardPrefix(Splice(a, last), b, front);
    }
  }

  /** Back to front or front to back, the text comes out the same. */
  lemma {:induction false} BackwardIsForward(text: string, ds: seq<Detection>)
    requires Row(ds, 0) && (ds != [] ==> ds[|ds| - 1].end <= |text|)
    ensures Backward(text, ds) == Forward(text, ds, 0)
    decreases |ds|
  {
    if ds == [] {
      assert text[0..] == text;
    } else {
      var last, front := ds[|ds| - 1], ds[..|ds| - 1];
      RowEnds(ds, 0);
      RowFront(ds, 0);
      var cut := text[..last.start];
      ForwardLast(text, ds, 0, cut);
      var tail := Placeholder(last.pattern) + text[last.end..];
      Assoc(cut, Placeholder(last.pattern), text[last.end..]);
      BackwardPrefix(cut, tail, front);
      BackwardIsForward(cut, front);
      Assoc(Backward(cut, front), Placeholder(last.pattern), text[last.end..]);
    }
  }

  // ---- Redact ----

  /** r is the text with the row's spans replaced, all else in place. */
  ghost predicate Replaces(text: string, row: seq<Detection>, r: string) {
    Row(row, 0) && (row != [] ==> row[|row| - 1].end <= |text|) && r == Forward(text, row, 0)
  }

  /** r is what Redact may return: whatever order its sort leaves ties in. */
  ghost predicate Redacts(text: string, detections: seq<Detection>, r: string) {
    exists sorted :: IsSort(ByClaim, detections, sorted) && Replaces(text, Sweep(sorted, 0), r)
  }

  function Reverse(ds: seq<Detection>): seq<Detection> {
    if ds == [] then [] else [ds[|ds| - 1]] + Reverse(ds[..|ds| - 1])
  }

  /** Sorting a row of non-empty spans by falling start can only reverse it. */
  lemma {:induction false} DescendingIsReverse(row: seq<Detection>, sorted: seq<Detection>, from: nat)
    requires Row(row, from) && (forall d | d in row :: d.start < d.end)
    requires IsSort(ByStartDescending, row, sorted)
    ensures sorted == Reverse(row)
    decreases |row|
  {
    assert |row| == |multiset(row)| == |sorted|;
    if row != [] {
      var last, front := row[|row| - 1], row[..|row| - 1];
      RowFront(row, from);
      GreatestFirst(row, sorted, from);
      assert row == front + [last];
      RestOf(front, last, sorted);
      DescendingIsReverse(front, sorted[1..], from);
    }
  }

  lemma GreatestFirst(row: seq<Detection>, sorted: seq<Detection>, from: nat)
    requires Row(row, from) && row != [] && sorted != [] && (forall d | d in row :: d.start < d.end)
    requires IsSort(ByStartDescending, row, sorted)
    ensures sorted[0] == row[|row| - 1]
  {
    var last, front := row[|row| - 1], row[..|row| - 1];
    SameMembers(row, sorted);
    assert last in sorted && sorted[0] in row;
    var k :| 0 <= k < |sorted| && sorted[k] == last;
    assert k > 0 ==> ByStartDescending(sorted[0], sorted[k]);
    if sorted[0] in front {
      RowBefore(row, from, sorted[0]);
    } else {
      assert row == front + [last];
    }
  }

  lemma RestOf(front: seq<Detection>, last: Detection, sorted: seq<Detection>)
    requires sorted != [] && sorted[0] == last && multiset(front + [last]) == multiset(sorted)
    ensures multiset(sorted[1..]) == multiset(front)
  {
    assert sorted == [last] + sorted[1..];
    assert multiset(front) == multiset(front + [last]) - multiset{last};
    assert multiset(sorted[1..]) == multiset(sorted) - multiset{last};
  }

  lemma {:induction false} RowBefore(row: seq<Detection>, from: nat, d: Detection)
    requires Row(row, from) && |row| > 0 && d in row[..|row| - 1] && d.start < d.end
    ensures d.start < row[|row| - 1].start
    decreases |row|
  {
    RowEnds(row, from);
    if row[0] != d {
      assert d in row[1..][..|row| - 2] by {
        var i :| 0 <= i < |row| - 1 && row[i] == d;
        assert row[1..][i - 1] == d;
      }
      RowBefore(row[1..], row[0].end, d);
    }
  }

  /** Back-to-front replacement over a reversed row. */
  lemma {:induction false} LastFits(row: seq<Detection>, from: nat, n: nat)
    requires Row(row, from) && forall d | d in row :: d.end <= n
    ensures row != [] ==> row[|row| - 1].end <= n
  {
  }

  method Redact(text: string, detections: seq<Detection>) returns (result: string)
    requires NonEmpty(detections, |text|)
    ensures Redacts(text, detections, result)
  {
    var sorted := Sort(ByClaim, detections);
    SortSorts(ByClaim, detections);
    SameMembers(detections, sorted);
    var resolved := ResolveOverlaps(sorted);
    SweepIsRow(sorted, 0);
    LastFits(resolved, 0, |text|);
    var descending := Sort(ByStartDescending, resolved);
    SortSorts(ByStartDescending, resolved);
    DescendingIsReverse(resolved, descending, 0);
    result := SpliceAll(text, descending, resolved);
    BackwardIsForward(text, resolved);
  }

  /** The replacement loop, over the spans of a row in falling order. */
  method SpliceAll(text: string, descending: seq<Detection>, ghost row: seq<Detection>) returns (result: string)
    requires Row(row, 0) && (row != [] ==> row[|row| - 1].end <= |text|) && descending == Reverse(row)
    ensures result == Backward(text, row)
  {
    result := text;
    ghost var left := row;
    for i := 0 to |descending|
      invariant Row(left, 0) && Reverse(left) == descending[i..]
      invariant left != [] ==> left[|left| - 1].end <= |result|
      invariant Backward(result, left) == Backward(text, row)
    {
      var det := descending[i];
      RowFront(left, 0);
      RowEnds(left, 0);
      assert det == left[|left| - 1];
      assert descending[i..][1..] == descending[i + 1..];
      result := result[..det.start] + Placeholder(det.pattern) + result[det.end..];
      left := left[..|left| - 1];
    }
  }

  /** The loop of resolveOverlaps, on the sorted copy. */
  method ResolveOverlaps(sorted: seq<Detection>) returns (result: seq<Detection>)
    ensures result == Sweep(sorted, 0)
  {
    result := [];
    var lastEnd := 0;
    for i := 0 to |sorted|
      invariant Sweep(sorted, 0) == result + Sweep(sorted[i..], lastEnd)
    {
      assert sorted[i..][1..] == sorted[i + 1..];
      if sorted[i].start >= lastEnd {
        Assoc(result, [sorted[i]], Sweep(sorted[i + 1..], sorted[i].end));
        result := result + [sorted[i]];
        lastEnd := sorted[i].end;
      }
    }
  }

  // ---- The outcome does not depend on how ties are sorted ----

  /** All that redaction looks at; the placeholder is a matter of priority alone. */
  datatype Key = Key(start: nat, end: nat, priority: int)

  function KeyOf(d: Detection): Key {
    Key(d.start, d.end, PriorityOf(d.pattern))
  }

  function Bag(ds: seq<Detection>): multiset<Key> {
    if ds == [] then multiset{} else multiset{KeyOf(ds[0])} + Bag(ds[1..])
  }

  ghost predicate SameKeys(a: seq<Detection>, b: seq<Detection>) {
    (a == [] <==> b == []) && (a != [] ==> KeyOf(a[0]) == KeyOf(b[0]) && SameKeys(a[1..], b[1..]))
  }

  lemma PlaceholderOfPriority(p: string, q: string)
    requires PriorityOf(p) == PriorityOf(q)
    ensures Placeholder(p) == Placeholder(q)
  {
  }

  lemma {:induction false} BagSplit(s: seq<Detection>, k: nat)
    requires k < |s|
    ensures Bag(s) == Bag(s[..k] + s[k + 1..]) + multiset{KeyOf(s[k])}
  {
    var rest := s[..k] + s[k + 1..];
    if k == 0 {
      assert rest == s[1..];
    } else {
      BagSplit(s[1..], k - 1);
      assert rest[1..] == s[1..][..k - 1] + s[1..][k..];
    }
  }

  lemma {:induction false} BagPermute(a: seq<Detection>, b: seq<Detection>)
    requires multiset(a) == multiset(b)
    ensures Bag(a) == Bag(b)
    decreases |a|
  {
    SameLength(a, b);
    if a != [] {
      assert a[0] in multiset(a);
      var k := IndexIn(b, a[0]);
      HeadOut(a);
      TakeOut(b, k);
      BagPermute(a[1..], b[..k] + b[k + 1..]);
      BagSplit(b, k);
    }
  }

  lemma {:induction false} BagIndex(s: seq<Detection>, key: Key) returns (k: nat)
    requires key in Bag(s)
    ensures k < |s| && KeyOf(s[k]) == key
  {
    if KeyOf(s[0]) == key {
      k := 0;
    } else {
      k := BagIndex(s[1..], key);
      k := k + 1;
    }
  }

  lemma LeastFirst(a: seq<Detection>, b: seq<Detection>)
    requires a != [] && b != [] && Bag(a) == Bag(b) && SortedBy(ByClaim, a)
    ensures ByClaim(a[0], b[0])
  {
    assert KeyOf(b[0]) in Bag(b);
    var j := BagIndex(a, KeyOf(b[0]));
    if j > 0 { assert ByClaim(a[0], a[j]); }
  }

  lemma {:induction false} SortsAgree(a: seq<Detection>, b: seq<Detection>)
    requires Bag(a) == Bag(b) && SortedBy(ByClaim, a) && SortedBy(ByClaim, b)
    ensures SameKeys(a, b)
    decreases |a|
  {
    BagEmpty(a);
    BagEmpty(b);
    if a != [] {
      HeadsAgree(a, b);
      BagTail(a);
      BagTail(b);
      SortsAgree(a[1..], b[1..]);
    }
  }

  lemma HeadsAgree(a: seq<Detection>, b: seq<Detection>)
    requires a != [] && b != [] && Bag(a) == Bag(b) && SortedBy(ByClaim, a) && SortedBy(ByClaim, b)
    ensures KeyOf(a[0]) == KeyOf(b[0])
  {
    LeastFirst(a, b);
    LeastFirst(b, a);
  }

  lemma BagEmpty(s: seq<Detection>)
    ensures Bag(s) == multiset{} <==> s == []
  {
    if s != [] { assert KeyOf(s[0]) in Bag(s); }
  }

  lemma BagTail(s: seq<Detection>)
    requires s != []
    ensures Bag(s[1..]) == Bag(s) - multiset{KeyOf(s[0])}
  {
  }

  lemma {:induction false} SweepByKeys(a: seq<Detection>, b: seq<Detection>, lastEnd: nat)
    requires SameKeys(a, b)
    ensures SameKeys(Sweep(a, lastEnd), Sweep(b, lastEnd))
    decreases |a|
  {
    if a != [] {
      SweepByKeys(a[1..], b[1..], if a[0].start >= lastEnd then a[0].end else lastEnd);
      Tail(a[0], Sweep(a[1..], a[0].end));
      Tail(b[0], Sweep(b[1..], b[0].end));
    }
  }

  lemma {:induction false} ForwardByKeys(text: string, a: seq<Detection>, b: seq<Detection>, from: nat)
    requires from <= |text| && Row(a, from) && Row(b, from) && SameKeys(a, b)
    requires a != [] ==> a[|a| - 1].end <= |text|
    requires b != [] ==> b[|b| - 1].end <= |text|
    ensures Forward(text, a, from) == Forward(text, b, from)
    decreases |a|
  {
    if a != [] {
      RowEnds(a, from);
      PlaceholderOfPriority(a[0].pattern, b[0].pattern);
      ForwardByKeys(text, a[1..], b[1..], a[0].end);
    }
  }

  /** The redacted text depends only on which detections there are: not on their order, and not
      on how an unstable sort leaves ties. */
  lemma RedactDeterministic(text: string, a: seq<Detection>, b: seq<Detection>, r: string, q: string)
    requires multiset(a) == multiset(b) && Redacts(text, a, r) && Redacts(text, b, q)
    ensures r == q
  {
    var s :| IsSort(ByClaim, a, s) && Replaces(text, Sweep(s, 0), r);
    var t :| IsSort(ByClaim, b, t) && Replaces(text, Sweep(t, 0), q);
    BagPermute(s, t);
    SortsAgree(s, t);
    SweepByKeys(s, t, 0);
    ForwardByKeys(text, Sweep(s, 0), Sweep(t, 0), 0);
  }

  // ---- Scan, then redact ----

  lemma {:induction false} CorrectIsRow(ds: seq<Detection>, n: nat, from: nat)
    requires InBounds(ds, n) && (ds != [] ==> from <= ds[0].start)
    requires forall i, j | 0 <= i < j < |ds| :: ds[i].end <= ds[j].start
    ensures Row(ds, from) && SortedBy(ByClaim, ds)
    decreases |ds|
  {
    if ds != [] {
      CorrectIsRow(ds[1..], n, ds[0].end);
    }
  }

  /** Redacting what Scan reports gives the undetected gaps in order, with one placeholder in
      place of each detection: no detected byte survives and every other byte does. */
  lemma RedactScan(ps: seq<Pattern>, text: string, ds: seq<Detection>, r: string)
    requires GoodPatterns(ps, text) && Correct(ps, text, ds) && Redacts(text, ds, r)
    ensures Replaces(text, ds, r)
  {
    CorrectIsRow(ds, |text|, 0);
    SweepKeepsRow(ds, 0);
    var q := Forward(text, ds, 0);
    assert IsSort(ByClaim, ds, ds) && Replaces(text, Sweep(ds, 0), q);
    RedactDeterministic(text, ds, ds, r, q);
  }
}
