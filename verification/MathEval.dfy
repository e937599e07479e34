// internal/tools/math_eval.go: evalExpr and the mathParser it drives, as the source runs
// them: one input string, one position, loops that advance it.
module MathEval {
  import opened Common
  import opened Sequences
  import opened MathSyntax
  import opened MathGrammar
  import opened MathRoundTrip

  // ---- strings.TrimSpace: the ends are read as UTF-8, unlike the rest of the input ----

  /** Byte length of the UTF-8 white-space character s begins with; 0 if there is none. */
  function LeadingSpace(s: string): (k: nat)
    ensures k <= |s|
  {
    if |s| >= 1 && AsciiSpace(s[0]) then 1
    else if |s| >= 2 && TwoByteSpace(s[0] as int, s[1] as int) then 2
    else if |s| >= 3 && ThreeByteSpace(s[0] as int, s[1] as int, s[2] as int) then 3
    else 0
  }

  function TrailingSpace(s: string): (k: nat)
    ensures k <= |s|
  {
    var m := |s|;
    if m >= 1 && AsciiSpace(s[m - 1]) then 1
    else if m >= 2 && TwoByteSpace(s[m - 2] as int, s[m - 1] as int) then 2
    else if m >= 3 && ThreeByteSpace(s[m - 3] as int, s[m - 2] as int, s[m - 1] as int) then 3
    else 0
  }

  predicate AsciiSpace(c: char) {
    9 <= c as int <= 13 || c == ' '
  }

  predicate TwoByteSpace(a: int, b: int) {
    a == 0xC2 && (b == 0x85 || b == 0xA0)                                      // U+0085, U+00A0
  }

  predicate ThreeByteSpace(a: int, b: int, c: int) {
    || (a == 0xE1 && b == 0x9A && c == 0x80)                                   // U+1680
    || (a == 0xE2 && b == 0x80 && (0x80 <= c <= 0x8A || c in {0xA8, 0xA9, 0xAF})) // U+2000-200A, 2028, 2029, 202F
    || (a == 0xE2 && b == 0x81 && c == 0x9F)                                   // U+205F
    || (a == 0xE3 && b == 0x80 && c == 0x80)                                   // U+3000
  }

  function TrimLeft(s: string): string {
    var k := LeadingSpace(s);
    if k == 0 then s else TrimLeft(s[k..])
  }

  function TrimRight(s: string): string {
    var k := TrailingSpace(s);
    if k == 0 then s else TrimRight(s[..|s| - k])
  }

  function TrimSpace(s: string): string {
    TrimRight(TrimLeft(s))
  }

  /** The answer evalExpr gives. */
  function Evaluate<V>(n: Numerics<V>, expr: string): Result<V, Error> {
    ParseAll(n, Spell(TrimSpace(expr), End))
  }

  // ---- Trimming does not disturb a printed tree ----

  predicate Visible(c: char) {
    33 <= c as int <= 126
  }

  lemma {:induction false} TrimLeftBlank(before: string, core: string) returns (kept: string)
    requires Blank(before) && core != "" && Visible(core[0])
    ensures Blank(kept) && TrimLeft(before + core) == kept + core
  {
    if before != "" && AsciiSpace(before[0]) {
      assert (before + core)[1..] == before[1..] + core;
      kept := TrimLeftBlank(before[1..], core);
    } else {
      kept := before;
    }
  }

  lemma {:induction false} TrimRightBlank(core: string, after: string) returns (kept: string)
    requires Blank(after) && core != "" && Visible(core[|core| - 1])
    ensures Blank(kept) && TrimRight(core + after) == core + kept
  {
    var m := |after|;
    if m > 0 && AsciiSpace(after[m - 1]) {
      assert (core + after)[..|core + after| - 1] == core + after[..m - 1];
      kept := TrimRightBlank(core, after[..m - 1]);
    } else {
      kept := after;
      if m > 1 { assert IsSpace(after[m - 2]); }
    }
  }

  ghost predicate VisibleStart(s: string) {
    s != "" && Visible(s[0])
  }

  ghost predicate VisibleEnd(s: string) {
    s != "" && Visible(s[|s| - 1])
  }

  /** The first k characters are blanks and the next one is visible. */
  ghost predicate StartsAt(s: string, k: nat) {
    k < |s| && Visible(s[k]) && forall i | 0 <= i < k :: IsSpace(s[i])
  }

  lemma StartsIn(ws: string, core: string)
    requires Blank(ws) && VisibleStart(core)
    ensures StartsAt(ws + core, |ws|)
  {
  }

  lemma StartsEarlier(s: string, k: nat, tail: string)
    requires StartsAt(s, k)
    ensures StartsAt(s + tail, k)
  {
  }

  /** A printed tree is blanks in front of something visible ... */
  lemma {:induction false} PrintStarts(t: Expr, level: nat) returns (k: nat)
    requires Fits(t, level)
    ensures StartsAt(Print(t), k)
    decreases t
  {
    match t
    case Number(w, lit) =>
      LiteralVisible(lit);
      k := |w|;
      StartsIn(w, lit.Text());
    case Constant(w, name) =>
      k := |w|;
    case Call(w, name, gap, args) =>
      k := |w|;
      StartsIn(w, name);
      StartsEarlier(w + name, k, gap);
      StartsEarlier(w + name + gap, k, "(");
      StartsEarlier(w + name + gap + "(", k, PrintArgs(args));
    case Paren(w, inner, gap) =>
      k := |w|;
      StartsIn(w, "(");
      StartsEarlier(w + "(", k, Print(inner));
      StartsEarlier(w + "(" + Print(inner), k, gap);
      StartsEarlier(w + "(" + Print(inner) + gap, k, ")");
    case Signed(w, sign, operand) =>
      k := |w|;
      StartsIn(w, [sign]);
      StartsEarlier(w + [sign], k, Print(operand));
    case Binary(left, w, op, right) =>
      k := PrintStarts(left, if IsSign(op) then SUM else PRODUCT);
      StartsEarlier(Print(left), k, w);
      StartsEarlier(Print(left) + w, k, [op]);
      StartsEarlier(Print(left) + w + [op], k, Print(right));
  }

  lemma EndsIn(s: string, core: string)
    requires VisibleEnd(core)
    ensures VisibleEnd(s + core)
  {
  }

  /** ... and ends visibly. */
  lemma {:induction false} PrintEnds(t: Expr, level: nat)
    requires Fits(t, level)
    ensures VisibleEnd(Print(t))
    decreases t
  {
    match t
    case Number(w, lit) => LiteralVisible(lit); EndsIn(w, lit.Text());
    case Constant(w, name) => EndsIn(w, name);
    case Call(w, name, gap, args) => ArgsClose(args); EndsIn(w + name + gap + "(", PrintArgs(args));
    case Paren(w, inner, gap) => EndsIn(w + "(" + Print(inner) + gap, ")");
    case Signed(w, sign, operand) => PrintEnds(operand, OPERAND); EndsIn(w + [sign], Print(operand));
    case Binary(left, w, op, right) =>
      PrintEnds(right, if IsSign(op) then PRODUCT else UNARY);
      EndsIn(Print(left) + w + [op], Print(right));
  }

  lemma LiteralVisible(lit: Literal)
    requires lit.Valid()
    ensures VisibleStart(lit.Text()) && VisibleEnd(lit.Text())
  {
    var s := lit.Text();
    if lit.exponent != "" {
      assert s[|s| - 1] == lit.exponent[lit.ExponentDigits()..][|lit.exponent| - lit.ExponentDigits() - 1];
    } else if |lit.fraction| > 1 {
      assert s[|s| - 1] == lit.fraction[1..][|lit.fraction| - 2];
    }
  }

  lemma {:induction false} ArgsClose(a: Args)
    ensures PrintArgs(a) != "" && PrintArgs(a)[|PrintArgs(a)| - 1] == ')'
    decreases a
  {
    if a.More? {
      ArgsClose(a.rest);
    }
  }

  lemma TrimCore(before: string, core: string, after: string) returns (lead: string, trail: string)
    requires Blank(before) && Blank(after) && VisibleStart(core) && VisibleEnd(core)
    ensures Blank(lead) && Blank(trail)
    ensures TrimSpace(before + core + after) == lead + core + trail
  {
    assert before + core + after == before + (core + after);
    lead := TrimLeftBlank(before, core + after);
    assert lead + (core + after) == (lead + core) + after;
    trail := TrimRightBlank(lead + core, after);
  }

  /** Blanks in front never matter to the parser. */
  lemma SameCore<V>(n: Numerics<V>, ws: string, ws': string, s: string)
    requires Blank(ws) && Blank(ws')
    ensures ParseAll(n, Spell(ws + s, End)) == ParseAll(n, Spell(ws' + s, End))
  {
    SpellConcat(ws, s, End);
    SpellConcat(ws', s, End);
    SkipBlank(ws, Spell(s, End));
    SkipBlank(ws', Spell(s, End));
    SumSkips(n, Spell(ws + s, End));
    SumSkips(n, Spell(ws' + s, End));
  }

  /** Outer blanks are trimmed or skipped: only some that follow may reach the parser. */
  lemma EvaluateAround<V>(n: Numerics<V>, before: string, s: string, k: nat, after: string)
    returns (trail: string)
    requires Blank(before) && Blank(after) && StartsAt(s, k) && VisibleEnd(s)
    ensures Blank(trail) && Evaluate(n, before + s + after) == ParseAll(n, Spell("" + s + trail, End))
  {
    var ws, core := s[..k], s[k..];
    assert before + s + after == before + ws + core + after;
    var lead;
    lead, trail := TrimCore(before + ws, core, after);
    SameCore(n, lead, ws, core + trail);
    assert lead + core + trail == lead + (core + trail);
    assert "" + s + trail == ws + (core + trail);
  }

  // ---- White-space characters of UTF-8 around it all ----

  /** White-space characters of UTF-8, one after another. */
  datatype Spaces = NoSpace | Space(rest: Spaces, one: string)

  ghost predicate White(sp: Spaces) {
    sp.NoSpace? || (LeadingSpace(sp.one) == |sp.one| > 0 && White(sp.rest))
  }

  function LeadText(sp: Spaces): string {
    if sp.NoSpace? then "" else sp.one + LeadText(sp.rest)
  }

  function TrailText(sp: Spaces): string {
    if sp.NoSpace? then "" else TrailText(sp.rest) + sp.one
  }

  lemma TrimOneLeft(c: string, s: string)
    requires LeadingSpace(c) == |c| > 0
    ensures TrimLeft(c + s) == TrimLeft(s)
  {
    assert LeadingSpace(c + s) == |c|;
    assert (c + s)[|c|..] == s;
  }

  /** A white-space character is found from either end. */
  lemma TrimOneRight(s: string, c: string)
    requires LeadingSpace(c) == |c| > 0
    ensures TrimRight(s + c) == TrimRight(s)
  {
    assert TrailingSpace(s + c) == |c|;
    assert (s + c)[..|s|] == s;
  }

  lemma {:induction false} TrimLeftSpaces(lead: Spaces, s: string)
    requires White(lead)
    ensures TrimLeft(LeadText(lead) + s) == TrimLeft(s)
  {
    if lead.NoSpace? {
      assert "" + s == s;
    } else {
      assert LeadText(lead) + s == lead.one + (LeadText(lead.rest) + s);
      TrimOneLeft(lead.one, LeadText(lead.rest) + s);
      TrimLeftSpaces(lead.rest, s);
    }
  }

  lemma {:induction false} TrimRightSpaces(s: string, trail: Spaces)
    requires White(trail)
    ensures TrimRight(s + TrailText(trail)) == TrimRight(s)
  {
    if trail.NoSpace? {
      assert s + "" == s;
    } else {
      assert s + TrailText(trail) == s + TrailText(trail.rest) + trail.one;
      TrimOneRight(s + TrailText(trail.rest), trail.one);
      TrimRightSpaces(s, trail.rest);
    }
  }

  lemma TrimOuter(lead: Spaces, before: string, core: string, trail: Spaces)
    requires White(lead) && White(trail) && Blank(before) && VisibleStart(core)
    ensures TrimSpace(LeadText(lead) + ((before + core) + TrailText(trail))) == TrimSpace(before + core)
  {
    TrimLeftSpaces(lead, (before + core) + TrailText(trail));
    Assoc(before, core, TrailText(trail));
    TrimTail(before, core, TrailText(trail), trail);
  }

  lemma TrimTail(before: string, core: string, tail: string, trail: Spaces)
    requires Blank(before) && VisibleStart(core) && White(trail) && tail == TrailText(trail)
    ensures TrimSpace(before + (core + tail)) == TrimSpace(before + core)
  {
    var kept := TrimLeftSame(before, core, tail);
    Assoc(kept, core, tail);
    TrimRightSpaces(kept + core, trail);
  }

  /** What follows the first visible character does not matter to trimming on the left. */
  lemma {:induction false} TrimLeftSame(before: string, core: string, tail: string) returns (kept: string)
    requires Blank(before) && core != "" && Visible(core[0])
    ensures TrimLeft(before + core) == kept + core && TrimLeft(before + (core + tail)) == kept + (core + tail)
  {
    if before != "" && AsciiSpace(before[0]) {
      assert (before + core)[1..] == before[1..] + core;
      assert (before + (core + tail))[1..] == before[1..] + (core + tail);
      kept := TrimLeftSame(before[1..], core, tail);
    } else {
      kept := before;
    }
  }

  // ---- The tool's promises ----

  /** Every tree, printed with its parentheses and any white space, evaluates to its value; a tree
      without a value gives the first error met from left to right.  Outermost there may stand any
      white-space characters of UTF-8. */
  lemma EvaluateOfPrint<V>(n: Numerics<V>, lead: Spaces, before: string, t: Expr, after: string, trail: Spaces)
    requires Fits(t, SUM) && White(lead) && Blank(before) && Blank(after) && White(trail)
    ensures Evaluate(n, LeadText(lead) + (before + Print(t) + after + TrailText(trail))) == Value(n, t)
  {
    var k := PrintStarts(t, SUM);
    PrintEnds(t, SUM);
    var s := Print(t);
    Regroup(before, s, k, after);
    TrimOuter(lead, before + s[..k], s[k..] + after, trail);
    var rest := EvaluateAround(n, before, s, k, after);
    ParseOfPrint(n, "", t, rest);
  }

  lemma Regroup(before: string, s: string, k: nat, after: string)
    requires Blank(before) && StartsAt(s, k)
    ensures before + s[..k] + (s[k..] + after) == before + s + after
    ensures Blank(before + s[..k]) && VisibleStart(s[k..] + after)
  {
    assert s == s[..k] + s[k..];
  }

  /** Any tree at all, once the needed parentheses are put in. */
  lemma EvaluateOfBracketed<V>(n: Numerics<V>, t: Expr)
    requires Spelled(t)
    ensures Evaluate(n, Print(Bracket(t, SUM))) == Value(n, t)
  {
    BracketFits(t, SUM);
    BracketKeepsValue(n, t, SUM);
    assert "" + ("" + Print(Bracket(t, SUM)) + "" + "") == Print(Bracket(t, SUM));
    EvaluateOfPrint(n, NoSpace, "", Bracket(t, SUM), "", NoSpace);
  }

  /** The trimmed text is the tree followed by blanks. */
  ghost predicate Spells(t: Expr, trimmed: string) {
    exists after :: Fits(t, SUM) && Blank(after) && trimmed == Print(t) + after
  }

  lemma ParseCharacterised<V>(n: Numerics<V>, s: string, v: V)
    ensures ParseAll(n, Spell(s, End)) == Ok(v) <==> exists t :: Spells(t, s) && Value(n, t) == Ok(v)
  {
    if ParseAll(n, Spell(s, End)) == Ok(v) {
      var t, after := AcceptedIsPrint(n, s);
      assert Spells(t, s);
    }
    if t :| Spells(t, s) && Value(n, t) == Ok(v) {
      var after :| Fits(t, SUM) && Blank(after) && s == Print(t) + after;
      assert s == "" + Print(t) + after;
      ParseOfPrint(n, "", t, after);
    }
  }

  /** The evaluator returns v for exactly the inputs that spell a tree of value v. */
  lemma EvaluateCharacterised<V>(n: Numerics<V>, expr: string, v: V)
    ensures Evaluate(n, expr) == Ok(v)
      <==> exists t :: Spells(t, TrimSpace(expr)) && Value(n, t) == Ok(v)
  {
    ParseCharacterised(n, TrimSpace(expr), v);
  }

  // ---- The parser object ----

  class MathParser<V> {
    const n: Numerics<V>
    const input: string
    var pos: nat

    constructor (n: Numerics<V>, input: string)
      ensures this.n == n && this.input == input && pos == 0
    {
      this.n := n;
      this.input := input;
      pos := 0;
    }

    ghost predicate Valid()
      reads this
    {
      pos <= |input|
    }

    ghost function Unread(): (t: Text)
      requires Valid()
      reads this
      ensures Len(t) == |input| - pos
      ensures t.End? <==> pos == |input|
      ensures t.At? ==> t.c == input[pos]
    {
      LenSpell(input[pos..]);
      Spell(input[pos..], End)
    }

    /** The method's answer and new position are those of the parse. */
    ghost predicate Follows<T>(p: Parse<T>, r: Result<T, Error>)
      requires Valid()
      reads this
    {
      match p
      case Failed(e) => r == Err(e)
      case Done(v, rest) => r == Ok(v) && Unread() == rest
    }

    method Advance()
      requires Valid() && pos < |input|
      modifies this
      ensures Valid() && pos == old(pos) + 1 && old(Unread()).At? && Unread() == old(Unread()).next
    {
      assert input[pos..][1..] == input[pos + 1..];
      pos := pos + 1;
    }

    method SkipWhitespace()
      requires Valid()
      modifies this
      ensures Valid() && old(pos) <= pos && Unread() == SkipSpace(old(Unread()))
    {
      while pos < |input| && IsSpace(input[pos])
        invariant old(pos) <= pos <= |input|
        invariant SkipSpace(Unread()) == SkipSpace(old(Unread()))
      {
        Advance();
      }
    }

    method ParseAddSub() returns (r: Result<V, Error>)
      requires Valid()
      modifies this
      ensures Valid() && old(pos) <= pos && Follows(ParseSum(n, old(Unread())), r)
      decreases |input| - pos, 5
    {
      r := ParseMulDiv();
      if r.Err? { return; }
      var left := r.value;
      while true
        invariant Valid() && old(pos) < pos
        invariant ParseSum(n, old(Unread())) == SumLoop(n, left, Unread())
        decreases |input| - pos
      {
        SkipWhitespace();
        if pos >= |input| { break; }
        var op := input[pos];
        if op != '+' && op != '-' { break; }
        Advance();
        r := ParseMulDiv();
        if r.Err? { return; }
        left := if op == '+' then n.add(left, r.value) else n.sub(left, r.value);
      }
      return Ok(left);
    }

    method ParseMulDiv() returns (r: Result<V, Error>)
      requires Valid()
      modifies this
      ensures Valid() && old(pos) <= pos && Follows(ParseProduct(n, old(Unread())), r)
      decreases |input| - pos, 4
    {
      r := ParseSigned();
      if r.Err? { return; }
      var left := r.value;
      while true
        invariant Valid() && old(pos) < pos
        invariant ParseProduct(n, old(Unread())) == ProductLoop(n, left, Unread())
        decreases |input| - pos
      {
        SkipWhitespace();
        if pos >= |input| { break; }
        var op := input[pos];
        if op != '*' && op != '/' && op != '%' { break; }
        Advance();
        r := ParseSigned();
        if r.Err? { return; }
        r := Multiply(op, left, r.value);
        if r.Err? { return; }
        left := r.value;
      }
      return Ok(left);
    }

    /** The cases of parseMulDiv's loop. */
    method Multiply(op: char, left: V, right: V) returns (r: Result<V, Error>)
      requires op == '*' || op == '/' || op == '%'
      ensures r == Combine(n, op, left, right)
    {
      if op == '*' { return Ok(n.mul(left, right)); }
      if op == '/' {
        if n.isZero(right) { return Err(DivisionByZero); }
        return Ok(n.div(left, right));
      }
      if n.isZero(right) { return Err(ModuloByZero); }
      return Ok(n.mod(left, right));
    }

    /** parseUnary */
    method ParseSigned() returns (r: Result<V, Error>)
      requires Valid()
      modifies this
      ensures Valid() && old(pos) <= pos && Follows(ParseUnary(n, old(Unread())), r)
      decreases |input| - pos, 3
    {
      SkipWhitespace();
      if pos < |input| && input[pos] == '-' {
        Advance();
        r := ParseOperand();
        if r.Ok? { r := Ok(n.neg(r.value)); }
        return;
      }
      if pos < |input| && input[pos] == '+' {
        Advance();
      }
      r := ParseOperand();
    }

    /** parsePrimary */
    method ParseOperand() returns (r: Result<V, Error>)
      requires Valid()
      modifies this
      ensures Valid() && old(pos) <= pos && Follows(ParsePrimary(n, old(Unread())), r)
      decreases |input| - pos, 2
    {
      SkipWhitespace();
      if pos >= |input| { return Err(UnexpectedEnd); }
      if input[pos] == '(' {
        Advance();
        r := ParseAddSub();
        if r.Err? { return; }
        SkipWhitespace();
        if pos >= |input| || input[pos] != ')' { return Err(MissingParenthesis); }
        Advance();
        return;
      }
      if IsLetter(input[pos]) {
        r := ParseNamed();
        return;
      }
      r := ParseLiteral();
    }

    method ScanName()
      requires Valid()
      modifies this
      ensures Valid() && old(pos) <= pos
      ensures TakeName(old(Unread())).0 == input[old(pos)..pos]
      ensures TakeName(old(Unread())).1 == Unread()
    {
      var start := pos;
      while pos < |input| && IsNameChar(input[pos])
        invariant start <= pos <= |input|
        invariant forall i | start <= i < pos :: IsNameChar(input[i])
      {
        pos := pos + 1;
      }
      SpellSlice(input, start, pos);
      TakeNameOf(input[start..pos], Unread());
    }

    /** parseFunc */
    method ParseNamed() returns (r: Result<V, Error>)
      requires Valid() && pos < |input| && IsLetter(input[pos])
      modifies this
      ensures Valid() && old(pos) <= pos && Follows(ParseFunc(n, old(Unread())), r)
      decreases |input| - pos, 1
    {
      var start := pos;
      ScanName();
      var name := input[start..pos];
      if IsConstant(name) { return Ok(ConstantValue(n, name)); }
      SkipWhitespace();
      if pos >= |input| || input[pos] != '(' { return Err(UnknownIdentifier); }
      Advance();
      var args := ParseArguments();
      if args.Err? { return Err(args.error); }
      r := Apply(n, name, args.value);
    }

    /** parseArgs */
    method ParseArguments() returns (r: Result<seq<V>, Error>)
      requires Valid()
      modifies this
      ensures Valid() && old(pos) <= pos && Follows(ParseArgs(n, old(Unread())), r)
      decreases |input| - pos, 7
    {
      var args: seq<V> := [];
      SkipWhitespace();
      if pos < |input| && input[pos] == ')' {
        Advance();
        return Ok(args);
      }
      PrefixedNone(ArgLoop(n, Unread()));
      while true
        invariant Valid() && old(pos) <= pos
        invariant ParseArgs(n, old(Unread())) == Prefixed(args, ArgLoop(n, Unread()))
        decreases |input| - pos
      {
        var v := ParseAddSub();
        if v.Err? { return Err(v.error); }
        args := args + [v.value];
        SkipWhitespace();
        if pos >= |input| { return Err(MissingCallParenthesis); }
        if input[pos] == ')' {
          Advance();
          return Ok(args);
        }
        if input[pos] != ',' { return Err(ExpectedCommaOrParenthesis); }
        Advance();
        PrefixedTwice(args[..|args| - 1], v.value, ArgLoop(n, Unread()));
      }
    }

    method ScanDigits()
      requires Valid()
      modifies this
      ensures Valid() && old(pos) <= pos
      ensures TakeDigits(old(Unread())).0 == input[old(pos)..pos]
      ensures TakeDigits(old(Unread())).1 == Unread()
    {
      var start := pos;
      while pos < |input| && IsDigit(input[pos])
        invariant start <= pos <= |input|
        invariant forall i | start <= i < pos :: IsDigit(input[i])
      {
        pos := pos + 1;
      }
      SpellSlice(input, start, pos);
      TakeDigitsOf(input[start..pos], Unread());
    }

    method ScanExponent()
      requires Valid()
      modifies this
      ensures Valid() && old(pos) <= pos
      ensures TakeExponent(old(Unread())).0 == input[old(pos)..pos]
      ensures TakeExponent(old(Unread())).1 == Unread()
    {
      var start := pos;
      if pos < |input| && (input[pos] == 'e' || input[pos] == 'E') {
        Advance();
        ScanSign();
        var digits := pos;
        ScanDigits();
        assert input[start..pos] == [input[start]] + input[start + 1..digits] + input[digits..pos];
      }
    }

    method ScanSign()
      requires Valid()
      modifies this
      ensures Valid() && old(pos) <= pos
      ensures TakeSign(old(Unread())).0 == input[old(pos)..pos]
      ensures TakeSign(old(Unread())).1 == Unread()
    {
      if pos < |input| && IsSign(input[pos]) {
        Advance();
      }
    }

    method ScanFraction()
      requires Valid()
      modifies this
      ensures Valid() && old(pos) <= pos
      ensures TakeFraction(old(Unread())).0 == input[old(pos)..pos]
      ensures TakeFraction(old(Unread())).1 == Unread()
    {
      var start := pos;
      if pos < |input| && input[pos] == '.' {
        Advance();
        ScanDigits();
        assert input[start..pos] == "." + input[start + 1..pos];
      }
    }

    /** parseNumber */
    method ParseLiteral() returns (r: Result<V, Error>)
      requires Valid()
      modifies this
      ensures Valid() && old(pos) <= pos && Follows(ParseNumber(n, old(Unread())), r)
    {
      SkipWhitespace();
      var start := pos;
      ScanSign();
      var whole := pos;
      ScanDigits();
      var fraction := pos;
      ScanFraction();
      var exponent := pos;
      ScanExponent();
      var lit := Literal(input[start..whole], input[whole..fraction],
                         input[fraction..exponent], input[exponent..pos]);
      if !lit.HasDigit() { return Err(ExpectedNumber); }
      r := ParseFloat(n, lit);
    }
  }

  lemma PrefixedNone<V>(p: Parse<seq<V>>)
    ensures Prefixed([], p) == p
  {
    if p.Done? { assert [] + p.value == p.value; }
  }

  lemma PrefixedTwice<V>(vs: seq<V>, v: V, p: Parse<seq<V>>)
    ensures Prefixed(vs, Prefixed([v], p)) == Prefixed(vs + [v], p)
  {
    if p.Done? { assert vs + ([v] + p.value) == vs + [v] + p.value; }
  }

  lemma SpellSlice(s: string, i: nat, j: nat)
    requires i <= j <= |s|
    ensures Spell(s[i..], End) == Spell(s[i..j], Spell(s[j..], End))
  {
    assert s[i..] == s[i..j] + s[j..];
    SpellConcat(s[i..j], s[j..], End);
  }

  lemma {:induction false} LenSpell(s: string)
    ensures Len(Spell(s, End)) == |s|
  {
    if s != "" {
      LenSpell(s[1..]);
    }
  }

  /** evalExpr */
  method EvalExpr<V>(n: Numerics<V>, expr: string) returns (r: Result<V, Error>)
    ensures r == Evaluate(n, expr)
  {
    var p := new MathParser(n, TrimSpace(expr));
    r := p.ParseAddSub();
    if r.Err? { return; }
    p.SkipWhitespace();
    if p.pos < |p.input| { return Err(UnexpectedCharacter); }
  }
}
