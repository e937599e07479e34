// internal/pii/patterns.go: luhnValid, the check of Annex B of ISO/IEC 7812-1.
module Luhn {
  import opened Common

  function DigitOf(c: char): (d: int)
    requires IsDigit(c)
    ensures 0 <= d <= 9
  {
    c as int - '0' as int
  }

  /** The digits of a string, whatever else stands between them. */
  function Digits(s: string): (ds: seq<int>)
    ensures forall d | d in ds :: 0 <= d <= 9
    ensures |ds| <= |s|
  {
    if s == "" then []
    else (if IsDigit(s[0]) then [DigitOf(s[0])] else []) + Digits(s[1..])
  }

  function Doubled(d: int): int {
    if 2 * d > 9 then 2 * d - 9 else 2 * d
  }

  /** What the digit at i contributes: every second one, counted from the right, is doubled. */
  function Term(ds: seq<int>, i: nat): int
    requires i < |ds|
  {
    if (|ds| - 1 - i) % 2 == 1 then Doubled(ds[i]) else ds[i]
  }

  /** The contributions from i to the right end. */
  function SumFrom(ds: seq<int>, i: nat): int
    requires i <= |ds|
    decreases |ds| - i
  {
    if i == |ds| then 0 else Term(ds, i) + SumFrom(ds, i + 1)
  }

  predicate Valid(ds: seq<int>) {
    13 <= |ds| <= 19 && SumFrom(ds, 0) % 10 == 0
  }

  method LuhnValid(s: string) returns (ok: bool)
    ensures ok <==> Valid(Digits(s))
  {
    var digits := CollectDigits(s);
    if |digits| < 13 || |digits| > 19 { return false; }
    var sum := WeightedSum(digits);
    return sum % 10 == 0;
  }

  method CollectDigits(s: string) returns (digits: seq<int>)
    ensures digits == Digits(s)
  {
    digits := [];
    for i := 0 to |s|
      invariant Digits(s) == digits + Digits(s[i..])
    {
      assert s[i..][1..] == s[i + 1..];
      if IsDigit(s[i]) {
        digits := digits + [DigitOf(s[i])];
      }
    }
  }

  method WeightedSum(digits: seq<int>) returns (sum: int)
    ensures sum == SumFrom(digits, 0)
  {
    sum := 0;
    var alt := false;
    var i := |digits| - 1;
    while i >= 0
      invariant -1 <= i < |digits|
      invariant sum == SumFrom(digits, i + 1)
      invariant alt <==> (|digits| - 1 - i) % 2 == 1
    {
      var d := digits[i];
      if alt {
        d := d * 2;
        if d > 9 {
          d := d - 9;
        }
      }
      sum := sum + d;
      alt := !alt;
      i := i - 1;
    }
  }

  // ---- The formula of the standard ----

  /** The sum of the decimal digits of a number below 100. */
  function DigitSum(n: nat): nat {
    n / 10 + n % 10
  }

  /** Annex B, two digits at a time from the right: the last as it is, the one before it doubled and then
      summed digit by digit. */
  function Annex(ds: seq<int>): int {
    if ds == [] then 0
    else if |ds| == 1 then ds[0]
    else
      var n := |ds|;
      Annex(ds[..n - 2]) + (if ds[n - 2] >= 0 then DigitSum(2 * ds[n - 2]) else 0) + ds[n - 1]
  }

  lemma {:induction false} SumShift(ds: seq<int>, i: nat)
    requires i + 2 <= |ds|
    ensures SumFrom(ds, i) == SumFrom(ds[..|ds| - 2], i) + Doubled(ds[|ds| - 2]) + ds[|ds| - 1]
    decreases |ds| - i
  {
    var front := ds[..|ds| - 2];
    if i + 2 == |ds| {
      assert SumFrom(ds, i + 1) == ds[i + 1] + SumFrom(ds, i + 2);
    } else {
      SumShift(ds, i + 1);
      assert Term(ds, i) == Term(front, i);
    }
  }

  lemma {:induction false} SumIsAnnex(ds: seq<int>)
    requires forall i | 0 <= i < |ds| :: 0 <= ds[i] <= 9
    ensures SumFrom(ds, 0) == Annex(ds)
    decreases |ds|
  {
    if |ds| >= 2 {
      SumIsAnnex(ds[..|ds| - 2]);
      SumShift(ds, 0);
    } else if |ds| == 1 {
      assert SumFrom(ds, 1) == 0;
    }
  }

  /** The check accepts exactly 13 to 19 digits whose sum by the standard's formula is divisible by ten. */
  lemma ValidIsAnnex(ds: seq<int>)
    requires forall i | 0 <= i < |ds| :: 0 <= ds[i] <= 9
    ensures Valid(ds) <==> 13 <= |ds| <= 19 && Annex(ds) % 10 == 0
  {
    SumIsAnnex(ds);
  }

  /** A text is read as the values of its digits, in order, and of nothing else. */
  lemma {:induction false} DigitsRead(s: string)
    ensures Digits("") == []
    ensures s != "" ==>
              var c := s[|s| - 1];
              Digits(s) == Digits(s[..|s| - 1]) + (if '0' <= c <= '9' then [c as int - 48] else [])
  {
    if s != "" {
      DigitsSplit(s, |s| - 1);
      assert s[|s| - 1..] == [s[|s| - 1]];
      assert [s[|s| - 1]][1..] == "";
    }
  }

  // ---- What the check detects ----

  ghost predicate AreDigits(ds: seq<int>) {
    forall i | 0 <= i < |ds| :: 0 <= ds[i] <= 9
  }

  /** Changing the digits at k changes the sum by the change of that one contribution. */
  lemma {:induction false} SumUpdate(ds: seq<int>, k: nat, d: int, i: nat)
    requires k < |ds| && i <= |ds|
    ensures SumFrom(ds[k := d], i) - SumFrom(ds, i) == if i <= k then Term(ds[k := d], k) - Term(ds, k) else 0
    decreases |ds| - i
  {
    if i < |ds| {
      SumUpdate(ds, k, d, i + 1);
    }
  }

  lemma TermsDiffer(ds: seq<int>, k: nat, d: int)
    requires k < |ds| && 0 <= ds[k] <= 9 && 0 <= d <= 9
    ensures (Term(ds[k := d], k) - Term(ds, k)) % 10 == 0 ==> d == ds[k]
  {
  }

  lemma ModDifference(a: int, b: int)
    ensures a % 10 == 0 ==> (b % 10 == 0 <==> (b - a) % 10 == 0)
  {
  }

  /** Any single wrong digit is caught. */
  lemma SingleErrorCaught(ds: seq<int>, k: nat, d: int)
    requires AreDigits(ds) && Valid(ds) && k < |ds| && 0 <= d <= 9 && d != ds[k]
    ensures !Valid(ds[k := d])
  {
    SumUpdate(ds, k, d, 0);
    TermsDiffer(ds, k, d);
    ModDifference(SumFrom(ds, 0), SumFrom(ds[k := d], 0));
  }

  function Swapped(ds: seq<int>, k: nat): seq<int>
    requires k + 1 < |ds|
  {
    ds[k := ds[k + 1]][k + 1 := ds[k]]
  }

  lemma SwapDifference(ds: seq<int>, k: nat)
    requires k + 1 < |ds| && AreDigits(ds)
    ensures SumFrom(Swapped(ds, k), 0) - SumFrom(ds, 0)
         == Term(Swapped(ds, k), k) + Term(Swapped(ds, k), k + 1) - Term(ds, k) - Term(ds, k + 1)
  {
    var mid, end := ds[k := ds[k + 1]], Swapped(ds, k);
    SumUpdate(ds, k, ds[k + 1], 0);
    SumUpdate(mid, k + 1, ds[k], 0);
    TermLocal(mid, ds, k + 1);
    TermLocal(end, mid, k);
  }

  lemma TermLocal(a: seq<int>, b: seq<int>, i: nat)
    requires |a| == |b| && i < |a| && a[i] == b[i]
    ensures Term(a, i) == Term(b, i)
  {
  }

  lemma SwapTerms(a: int, b: int)
    requires 0 <= a <= 9 && 0 <= b <= 9
    ensures (Doubled(b) + a - Doubled(a) - b) % 10 == 0 <==> a == b || {a, b} == {0, 9}
  {
    var f, g := Doubled(a) - a, Doubled(b) - b;
    assert {a, b} == {0, 9} <==> (a == 0 && b == 9) || (a == 9 && b == 0) by {
      if {a, b} == {0, 9} {
        assert 0 in {a, b} && 9 in {a, b};
      }
    }
  }

  lemma ModNegate(x: int)
    ensures x % 10 == 0 <==> (-x) % 10 == 0
  {
  }

  /** Swapping two neighbours is caught unless they are equal, or 0 and 9. */
  lemma TranspositionCaught(ds: seq<int>, k: nat)
    requires AreDigits(ds) && Valid(ds) && k + 1 < |ds|
    ensures Valid(Swapped(ds, k)) <==> ds[k] == ds[k + 1] || {ds[k], ds[k + 1]} == {0, 9}
  {
    var a, b := ds[k], ds[k + 1];
    SwapDifference(ds, k);
    SwapTerms(a, b);
    ModNegate(Doubled(b) + a - Doubled(a) - b);
    ModDifference(SumFrom(ds, 0), SumFrom(Swapped(ds, k), 0));
  }

  /** Exactly one final digit completes a number. */
  function CheckDigit(ds: seq<int>): int {
    (10 - SumFrom(ds + [0], 0) % 10) % 10
  }

  lemma CheckDigitUnique(ds: seq<int>, d: int)
    requires AreDigits(ds) && 12 <= |ds| <= 18 && 0 <= d <= 9
    ensures Valid(ds + [d]) <==> d == CheckDigit(ds)
  {
    var zero := ds + [0];
    assert zero[|ds| := d] == ds + [d];
    SumUpdate(zero, |ds|, d, 0);
    assert SumFrom(ds + [d], 0) == SumFrom(zero, 0) + d;
  }

  // ---- The same on the strings themselves ----

  /** How many digits stand before position i. */
  function DigitsBefore(s: string, i: nat): (k: nat)
    requires i <= |s|
  {
    |Digits(s[..i])|
  }

  lemma {:induction false} DigitsSplit(s: string, i: nat)
    requires i <= |s|
    ensures Digits(s) == Digits(s[..i]) + Digits(s[i..])
  {
    if i > 0 {
      DigitsSplit(s[1..], i - 1);
      assert s[1..][..i - 1] == s[..i][1..] && s[1..][i - 1..] == s[i..];
    } else {
      assert s[..0] == "" && s[0..] == s;
    }
  }

  lemma DigitAt(s: string, i: nat)
    requires i < |s| && IsDigit(s[i])
    ensures DigitsBefore(s, i) < |Digits(s)| && Digits(s)[DigitsBefore(s, i)] == DigitOf(s[i])
    ensures Digits(s) == Digits(s[..i]) + [DigitOf(s[i])] + Digits(s[i + 1..])
  {
    DigitsSplit(s, i);
    assert s[i..][0] == s[i] && s[i..][1..] == s[i + 1..];
  }

  lemma DigitChanged(s: string, i: nat, c: char)
    requires i < |s| && IsDigit(s[i]) && IsDigit(c)
    ensures DigitsBefore(s, i) < |Digits(s)|
    ensures Digits(s[i := c]) == Digits(s)[DigitsBefore(s, i) := DigitOf(c)]
  {
    var t := s[i := c];
    DigitAt(s, i);
    DigitAt(t, i);
    assert t[..i] == s[..i] && t[i + 1..] == s[i + 1..];
  }

  lemma DigitsAreDigits(s: string)
    ensures AreDigits(Digits(s))
  {
    forall i | 0 <= i < |Digits(s)|
      ensures 0 <= Digits(s)[i] <= 9
    {
      assert Digits(s)[i] in Digits(s);
    }
  }

  /** A card number with one digit mistyped is rejected, separators and all. */
  lemma MistypedRejected(s: string, i: nat, c: char)
    requires Valid(Digits(s)) && i < |s| && IsDigit(s[i]) && IsDigit(c) && c != s[i]
    ensures !Valid(Digits(s[i := c]))
  {
    DigitsAreDigits(s);
    DigitAt(s, i);
    DigitChanged(s, i, c);
    SingleErrorCaught(Digits(s), DigitsBefore(s, i), DigitOf(c));
  }

  lemma {:induction false} NoDigits(s: string)
    requires forall k | 0 <= k < |s| :: !IsDigit(s[k])
    ensures Digits(s) == []
  {
    if s != "" {
      NoDigits(s[1..]);
    }
  }

  /** With two neighbouring digits swapped it is rejected, unless they are equal, or 0 and 9. */
  lemma SwappedRejected(s: string, i: nat, j: nat)
    requires Valid(Digits(s)) && i < j < |s| && IsDigit(s[i]) && IsDigit(s[j])
    requires forall k | i < k < j :: !IsDigit(s[k])
    ensures Valid(Digits(s[i := s[j]][j := s[i]])) <==> s[i] == s[j] || {s[i], s[j]} == {'0', '9'}
  {
    var k := DigitsBefore(s, i);
    var mid := s[i := s[j]];
    DigitsAreDigits(s);
    Neighbours(s, i, j);
    Neighbours(mid, i, j);
    assert mid[..i] == s[..i];
    DigitAt(s, i);
    DigitAt(s, j);
    DigitChanged(s, i, s[j]);
    DigitChanged(mid, j, s[i]);
    TranspositionCaught(Digits(s), k);
    SameChars(s[i], s[j]);
  }

  lemma Neighbours(s: string, i: nat, j: nat)
    requires i < j < |s| && IsDigit(s[i]) && IsDigit(s[j]) && forall k | i < k < j :: !IsDigit(s[k])
    ensures DigitsBefore(s, j) == DigitsBefore(s, i) + 1
  {
    DigitsSplit(s[..j], i);
    assert s[..j][..i] == s[..i] && s[..j][i..][0] == s[i] && s[..j][i..][1..] == s[i + 1..j];
    NoDigits(s[i + 1..j]);
  }

  lemma SameChars(a: char, b: char)
    requires IsDigit(a) && IsDigit(b)
    ensures a == b <==> DigitOf(a) == DigitOf(b)
    ensures {a, b} == {'0', '9'} <==> {DigitOf(a), DigitOf(b)} == {0, 9}
  {
    if {a, b} == {'0', '9'} {
      assert '0' in {a, b} && '9' in {a, b};
    }
    if {DigitOf(a), DigitOf(b)} == {0, 9} {
      assert 0 in {DigitOf(a), DigitOf(b)} && 9 in {DigitOf(a), DigitOf(b)};
    }
  }
}
