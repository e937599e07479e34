// internal/tools/math_eval.go: the parser reads back every printed tree, and everything
// it accepts is a printed tree.
module MathRoundTrip {
  import opened Common
  import opened Sequences
  import opened MathSyntax
  import opened MathGrammar

  // ---- Completeness: parsing a printed tree gives its value ----

  /** What may stand right after a complete operand: nothing the lexers would swallow. */
  ghost predicate Delimited(t: Text) {
    t.End? || IsSpace(t.c) || IsSign(t.c) || IsFactorOp(t.c) || t.c == ')' || t.c == ','
  }

  lemma {:induction false} SkipBlank(ws: string, t: Text)
    requires Blank(ws)
    ensures SkipSpace(Spell(ws, t)) == SkipSpace(t)
  {
    if ws != "" {
      SkipBlank(ws[1..], t);
    }
  }

  lemma BlankThen(ws: string, t: Text)
    requires Blank(ws)
    ensures Spell(ws, t) == t || (Spell(ws, t).At? && IsSpace(Spell(ws, t).c))
  {
  }

  lemma {:induction false} TakeDigitsOf(digits: string, t: Text)
    requires Digits(digits) && (t.End? || !IsDigit(t.c))
    ensures TakeDigits(Spell(digits, t)) == (digits, t)
  {
    if digits != "" {
      TakeDigitsOf(digits[1..], t);
      assert [digits[0]] + digits[1..] == digits;
    }
  }

  lemma {:induction false} TakeNameOf(name: string, t: Text)
    requires forall i | 0 <= i < |name| :: IsNameChar(name[i])
    requires t.End? || !IsNameChar(t.c)
    ensures TakeName(Spell(name, t)) == (name, t)
  {
    if name != "" {
      TakeNameOf(name[1..], t);
      assert [name[0]] + name[1..] == name;
    }
  }

  lemma TakeSignOf(sign: string, t: Text)
    requires sign == "" || (|sign| == 1 && IsSign(sign[0]))
    requires !AtSign(t)
    ensures TakeSign(Spell(sign, t)) == (sign, t)
  {
    if sign != "" {
      assert sign == [sign[0]];
    }
  }

  lemma TakeFractionOf(lit: Literal, t: Text)
    requires lit.Valid() && (t.End? || (!IsDigit(t.c) && t.c != '.'))
    ensures TakeFraction(Spell(lit.fraction, t)) == (lit.fraction, t)
  {
    if lit.fraction != "" {
      TakeDigitsOf(lit.fraction[1..], t);
      assert "." + lit.fraction[1..] == lit.fraction;
    }
  }

  lemma TakeExponentOf(lit: Literal, t: Text)
    requires lit.Valid() && (t.End? || !IsNameChar(t.c))
    ensures TakeExponent(Spell(lit.exponent, t)) == (lit.exponent, t)
  {
    var e := lit.exponent;
    if e != "" {
      var d := lit.ExponentDigits();
      ThreeParts(e, d);
      TakeExponentParts(e[0], e[1..d], e[d..], t);
    }
  }

  lemma TakeExponentParts(e: char, sign: string, digits: string, t: Text)
    requires (e == 'e' || e == 'E') && (sign == "" || (|sign| == 1 && IsSign(sign[0])))
    requires Digits(digits) && digits != "" && (t.End? || !IsNameChar(t.c))
    ensures TakeExponent(At(e, Spell(sign + digits, t))) == ([e] + sign + digits, t)
  {
    SpellConcat(sign, digits, t);
    TakeDigitsOf(digits, t);
    TakeSignOf(sign, Spell(digits, t));
  }

  /** Maximal munch reads back exactly the literal that was printed. */
  lemma TakeNumberOf(lit: Literal, t: Text)
    requires lit.Valid() && (t.End? || (!IsNameChar(t.c) && t.c != '.'))
    ensures TakeNumber(WriteLiteral(lit, t)) == (lit, t)
    ensures var w := WriteLiteral(lit, t);
            w.At? && (IsDigit(w.c) || w.c == '.' || (lit.sign != "" && IsSign(w.c)))
  {
    var t3 := Spell(lit.exponent, t);
    var t2 := Spell(lit.fraction, t3);
    var t1 := Spell(lit.whole, t2);
    TakeExponentOf(lit, t);
    TakeFractionOf(lit, t3);
    TakeDigitsOf(lit.whole, t2);
    TakeSignOf(lit.sign, t1);
  }

  function AsParse<V>(r: Result<V, Error>, rest: Text): Parse<V> {
    match r
    case Err(e) => Failed(e)
    case Ok(v) => Done(v, rest)
  }

  lemma NameComplete(ws: string, name: string, t: Text)
    requires Blank(ws) && ValidName(name) && (t.End? || !IsNameChar(t.c))
    ensures SkipSpace(Spell(ws, Spell(name, t))) == Spell(name, t)
    ensures var s := Spell(name, t); s.At? && IsLetter(s.c) && !IsSign(s.c) && s.c != '('
    ensures TakeName(Spell(name, t)) == (name, t)
  {
    SkipBlank(ws, Spell(name, t));
    TakeNameOf(name, t);
  }

  lemma {:induction false} NumberComplete<V>(n: Numerics<V>, t: Expr, rest: Text)
    requires t.Number? && Fits(t, OPERAND) && Delimited(rest)
    ensures ParsePrimary(n, Write(t, rest)) == AsParse(Value(n, t), rest)
    ensures Fits(t, UNARY) ==> !AtSign(SkipSpace(Write(t, rest)))
  {
    var w := WriteLiteral(t.lit, rest);
    TakeNumberOf(t.lit, rest);
    SkipBlank(t.ws, w);
    NumberParsed(n, t.lit, w, rest);
    PrimaryIsNumber(n, Write(t, rest), w);
  }

  lemma NumberParsed<V>(n: Numerics<V>, lit: Literal, w: Text, rest: Text)
    requires TakeNumber(w) == (lit, rest) && SkipSpace(w) == w && lit.HasDigit()
    ensures ParseNumber(n, w) == AsParse(ParseFloat(n, lit), rest)
  {
  }

  lemma PrimaryIsNumber<V>(n: Numerics<V>, s: Text, w: Text)
    requires SkipSpace(s) == w && w.At? && w.c != '(' && !IsLetter(w.c)
    ensures ParsePrimary(n, s) == ParseNumber(n, w)
  {
  }

  lemma {:induction false} PrimaryComplete<V>(n: Numerics<V>, t: Expr, rest: Text)
    requires Fits(t, OPERAND) && Delimited(rest)
    ensures ParsePrimary(n, Write(t, rest)) == AsParse(Value(n, t), rest)
    ensures Fits(t, UNARY) ==> !AtSign(SkipSpace(Write(t, rest)))
    decreases t, 0
  {
    match t
    case Number(ws, lit) =>
      NumberComplete(n, t, rest);
    case Constant(ws, name) =>
      NameComplete(ws, name, rest);
    case Call(_, _, _, _) =>
      CallComplete(n, t, rest);
    case Paren(_, _, _) =>
      ParenComplete(n, t, rest);
  }

  lemma {:induction false} CallComplete<V>(n: Numerics<V>, t: Expr, rest: Text)
    requires t.Call? && Fits(t, OPERAND)
    ensures ParsePrimary(n, Write(t, rest)) == AsParse(Value(n, t), rest)
    ensures !AtSign(SkipSpace(Write(t, rest)))
    decreases t.args, 7
  {
    var call := At('(', WriteArgs(t.args, rest));
    BlankThen(t.gap, call);
    NameComplete(t.ws, t.name, Spell(t.gap, call));
    SkipBlank(t.gap, call);
    ArgsComplete(n, t.args, rest);
  }

  lemma {:induction false} ParenComplete<V>(n: Numerics<V>, t: Expr, rest: Text)
    requires t.Paren? && Fits(t, OPERAND)
    ensures ParsePrimary(n, Write(t, rest)) == AsParse(Value(n, t), rest)
    ensures !AtSign(SkipSpace(Write(t, rest)))
    decreases t.inner, 4
  {
    var close := At(')', rest);
    SkipBlank(t.ws, At('(', Write(t.inner, Spell(t.gap, close))));
    SkipBlank(t.gap, close);
    BlankThen(t.gap, close);
    SumComplete(n, t.inner, Spell(t.gap, close));
  }

  lemma {:induction false} UnaryComplete<V>(n: Numerics<V>, t: Expr, rest: Text)
    requires Fits(t, UNARY) && Delimited(rest)
    ensures ParseUnary(n, Write(t, rest)) == AsParse(Value(n, t), rest)
    decreases t, 1
  {
    if t.Signed? {
      SkipBlank(t.ws, At(t.sign, Write(t.operand, rest)));
      PrimaryComplete(n, t.operand, rest);
    } else {
      PrimaryComplete(n, t, rest);
      PrimarySkips(n, Write(t, rest));
    }
  }

  lemma PrimarySkips<V>(n: Numerics<V>, s: Text)
    ensures ParsePrimary(n, SkipSpace(s)) == ParsePrimary(n, s)
  {
    assert SkipSpace(SkipSpace(s)) == SkipSpace(s);
  }

  /** A product printed before any text leaves the parser in its loop with the product's value. */
  lemma {:induction false} ProductComplete<V>(n: Numerics<V>, t: Expr, rest: Text)
    requires Fits(t, PRODUCT) && Delimited(rest)
    ensures ParseProduct(n, Write(t, rest))
         == match Value(n, t) case Err(e) => Failed(e) case Ok(v) => ProductLoop(n, v, rest)
    decreases t, 2
  {
    if t.Binary? {
      var tail := At(t.op, Write(t.right, rest));
      BlankThen(t.ws, tail);
      ProductComplete(n, t.left, Spell(t.ws, tail));
      SkipBlank(t.ws, tail);
      UnaryComplete(n, t.right, rest);
    } else {
      UnaryComplete(n, t, rest);
    }
  }

  lemma SumLoopSkips<V>(n: Numerics<V>, v: V, s: Text)
    ensures SumLoop(n, v, SkipSpace(s)) == SumLoop(n, v, s)
  {
    assert SkipSpace(SkipSpace(s)) == SkipSpace(s);
  }

  lemma {:induction false} SumComplete<V>(n: Numerics<V>, t: Expr, rest: Text)
    requires Fits(t, SUM) && Delimited(rest) && !AtFactorOp(SkipSpace(rest))
    ensures ParseSum(n, Write(t, rest))
         == match Value(n, t) case Err(e) => Failed(e) case Ok(v) => SumLoop(n, v, rest)
    decreases t, 3
  {
    if t.Binary? && IsSign(t.op) {
      var tail := At(t.op, Write(t.right, rest));
      BlankThen(t.ws, tail);
      SkipBlank(t.ws, tail);
      SumComplete(n, t.left, Spell(t.ws, tail));
      ProductComplete(n, t.right, rest);
    } else {
      ProductComplete(n, t, rest);
    }
    if Value(n, t).Ok? {
      SumLoopSkips(n, Value(n, t).value, rest);
    }
  }

  /** Every printed tree is blanks followed by a visible opening character. */
  ghost predicate Opens(t: Text) {
    t.At? && (IsSign(t.c) || IsDigit(t.c) || t.c == '.' || t.c == '(' || IsAsciiLetter(t.c))
  }

  lemma {:induction false} WriteOpens(t: Expr, level: nat, rest: Text)
    requires Fits(t, level)
    ensures Opens(SkipSpace(Write(t, rest)))
    decreases t
  {
    match t
    case Number(ws, lit) =>
      LiteralOpens(lit, rest);
      SkipBlank(ws, WriteLiteral(lit, rest));
    case Constant(ws, name) =>
      SkipBlank(ws, Spell(name, rest));
    case Call(ws, name, gap, args) =>
      SkipBlank(ws, Spell(name, Spell(gap, At('(', WriteArgs(args, rest)))));
    case Paren(ws, inner, gap) =>
      SkipBlank(ws, At('(', Write(inner, Spell(gap, At(')', rest)))));
    case Signed(ws, sign, operand) =>
      SkipBlank(ws, At(sign, Write(operand, rest)));
    case Binary(left, ws, op, right) =>
      WriteOpens(left, if IsSign(op) then SUM else PRODUCT, Spell(ws, At(op, Write(right, rest))));
  }

  lemma LiteralOpens(lit: Literal, rest: Text)
    requires lit.Valid()
    ensures Opens(WriteLiteral(lit, rest))
  {
  }

  lemma SumSkips<V>(n: Numerics<V>, s: Text)
    ensures ParseSum(n, SkipSpace(s)) == ParseSum(n, s)
  {
    assert SkipSpace(SkipSpace(s)) == SkipSpace(s);
    assert ParseUnary(n, SkipSpace(s)) == ParseUnary(n, s);
    assert ParseProduct(n, SkipSpace(s)) == ParseProduct(n, s);
  }

  lemma {:induction false} ArgsComplete<V>(n: Numerics<V>, a: Args, rest: Text)
    requires ArgsFit(a)
    ensures ParseArgs(n, WriteArgs(a, rest)) == AsParse(Values(n, a), rest)
    decreases a, 6
  {
    var s := WriteArgs(a, rest);
    if a.NoArgs? {
      SkipBlank(a.ws, At(')', rest));
    } else {
      ArgLoopComplete(n, a, rest);
      SumSkips(n, s);
      assert ArgLoop(n, SkipSpace(s)) == ArgLoop(n, s);
      var tail := if a.Last? then Spell(a.ws, At(')', rest)) else Spell(a.ws, At(',', WriteArgs(a.rest, rest)));
      WriteOpens(a.arg, SUM, tail);
    }
  }

  lemma {:induction false} ArgLoopComplete<V>(n: Numerics<V>, a: Args, rest: Text)
    requires ArgsFit(a) && !a.NoArgs?
    ensures ArgLoop(n, WriteArgs(a, rest)) == AsParse(Values(n, a), rest)
    decreases a, 5
  {
    var close := if a.Last? then At(')', rest) else At(',', WriteArgs(a.rest, rest));
    ArgComplete(n, a.arg, a.ws, close);
    ArgLoopTurn(n, WriteArgs(a, rest), Value(n, a.arg), close);
    if a.More? {
      ArgLoopComplete(n, a.rest, rest);
    }
  }

  lemma {:induction false} ArgComplete<V>(n: Numerics<V>, t: Expr, ws: string, close: Text)
    requires Fits(t, SUM) && Blank(ws) && close.At? && (close.c == ')' || close.c == ',')
    ensures ParseSum(n, Write(t, Spell(ws, close))) == AsParse(Value(n, t), close)
    decreases t, 4
  {
    BlankThen(ws, close);
    SkipBlank(ws, close);
    SumComplete(n, t, Spell(ws, close));
  }

  /** One argument, and the character that closes it. */
  lemma ArgLoopTurn<V>(n: Numerics<V>, s: Text, v: Result<V, Error>, close: Text)
    requires ParseSum(n, s) == AsParse(v, close) && close.At? && (close.c == ')' || close.c == ',')
    ensures ArgLoop(n, s) ==
            if v.Err? then Failed(v.error)
            else if close.c == ')' then Done([v.value], close.next)
            else Prefixed([v.value], ArgLoop(n, close.next))
  {
    assert SkipSpace(close) == close;
  }

  /** Any correctly bracketed tree, between any blanks, parses to its value: the value when
      it has one, and otherwise the very error its evaluation meets first. */
  lemma ParseOfPrint<V>(n: Numerics<V>, before: string, t: Expr, after: string)
    requires Fits(t, SUM) && Blank(before) && Blank(after)
    ensures ParseAll(n, Spell(before + Print(t) + after, End)) == Value(n, t)
  {
    var tail := Spell(after, End);
    SpellConcat(before + Print(t), after, End);
    SpellConcat(before, Print(t), tail);
    WriteIsPrint(t, tail);
    SkipBlank(before, Write(t, tail));
    SumSkips(n, Spell(before, Write(t, tail)));
    SumSkips(n, Write(t, tail));
    SkipBlank(after, End);
    BlankThen(after, End);
    SumComplete(n, t, tail);
  }

  // ---- Soundness: whatever is accepted is a printed tree ----

  /** The blanks SkipSpace passes over. */
  function Skipped(t: Text): (ws: string)
    ensures Blank(ws)
    ensures Spell(ws, SkipSpace(t)) == t
  {
    if t.At? && IsSpace(t.c) then [t.c] + Skipped(t.next) else ""
  }

  lemma {:induction false} TakeDigitsSound(t: Text)
    ensures Spell(TakeDigits(t).0, TakeDigits(t).1) == t
  {
    if t.At? && IsDigit(t.c) {
      TakeDigitsSound(t.next);
    }
  }

  lemma {:induction false} TakeNameSound(t: Text)
    ensures Spell(TakeName(t).0, TakeName(t).1) == t
    ensures forall i | 0 <= i < |TakeName(t).0| :: IsNameChar(TakeName(t).0[i])
    ensures TakeName(t).0 != "" ==> t.At? && TakeName(t).0[0] == t.c
  {
    if t.At? && IsNameChar(t.c) {
      TakeNameSound(t.next);
    }
  }

  lemma TakeFractionSound(t: Text)
    ensures Spell(TakeFraction(t).0, TakeFraction(t).1) == t
    ensures var f := TakeFraction(t).0; f == "" || (f[0] == '.' && Digits(f[1..]))
  {
    if t.At? && t.c == '.' {
      TakeDigitsSound(t.next);
      assert ("." + TakeDigits(t.next).0)[1..] == TakeDigits(t.next).0;
    }
  }

  lemma TakeExponentSound(t: Text)
    ensures Spell(TakeExponent(t).0, TakeExponent(t).1) == t
    ensures var lit := Literal("", "", "", TakeExponent(t).0);
            lit.exponent == "" || ((lit.exponent[0] == 'e' || lit.exponent[0] == 'E')
              && (lit.CompleteExponent() ==> Digits(lit.exponent[lit.ExponentDigits()..])))
  {
    if t.At? && (t.c == 'e' || t.c == 'E') {
      var sign := TakeSign(t.next);
      var digits := TakeDigits(sign.1);
      var e := [t.c] + sign.0 + digits.0;
      var lit := Literal("", "", "", e);
      TakeDigitsSound(sign.1);
      assert Spell(sign.0, sign.1) == t.next;
      SpellConcat(sign.0, digits.0, digits.1);
      assert e[1..] == sign.0 + digits.0;
      if lit.CompleteExponent() {
        assert lit.ExponentDigits() == 1 + |sign.0|;
        assert e[1 + |sign.0|..] == digits.0;
      }
    }
  }

  lemma TakeNumberSound(t: Text)
    ensures var r := TakeNumber(t);
            WriteLiteral(r.0, r.1) == t && (r.0.HasDigit() && r.0.CompleteExponent() ==> r.0.Valid())
  {
    var sign := TakeSign(t);
    var whole := TakeDigits(sign.1);
    var fraction := TakeFraction(whole.1);
    assert Spell(sign.0, sign.1) == t;
    TakeDigitsSound(sign.1);
    TakeFractionSound(whole.1);
    TakeExponentSound(fraction.1);
  }

  lemma LowerAscii(name: string, known: string)
    requires Lower(name) == known
    requires forall i | 0 <= i < |known| :: IsAsciiLetter(known[i]) || IsDigit(known[i])
    ensures forall i | 0 <= i < |name| :: IsAsciiLetter(name[i]) || IsDigit(name[i])
  {
    if name != "" {
      assert Lower(name)[1..] == Lower(name[1..]);
      assert Lower(name)[0] == known[0];
      LowerAscii(name[1..], known[1..]);
      assert name == [name[0]] + name[1..];
    }
  }

  /** Only the documented names give a value, and they are ASCII. */
  lemma KnownNameValid<V>(n: Numerics<V>, name: string, args: seq<V>)
    requires name != "" && IsLetter(name[0])
    requires IsConstant(name) || Apply(n, name, args).Ok?
    ensures ValidName(name)
  {
    LowerAscii(name, Lower(name));
  }

  lemma {:induction false} SumSound<V>(n: Numerics<V>, s: Text) returns (t: Expr, ws: string)
    requires ParseSum(n, s).Done?
    ensures Fits(t, SUM) && Value(n, t) == Ok(ParseSum(n, s).value)
    ensures Blank(ws) && s == Write(t, Spell(ws, ParseSum(n, s).rest))
    decreases Len(s), 5
  {
    t, ws := ProductSound(n, s);
    t, ws := SumLoopSound(n, t, ws, ParseProduct(n, s).rest);
  }

  /** Each turn of the loop hangs one more right operand on the tree read so far. */
  lemma {:induction false} SumLoopSound<V>(n: Numerics<V>, left: Expr, gap: string, s: Text)
    returns (t: Expr, ws: string)
    requires Fits(left, SUM) && Value(n, left).Ok? && Blank(gap)
    requires SumLoop(n, Value(n, left).value, s).Done?
    ensures var r := SumLoop(n, Value(n, left).value, s);
            Fits(t, SUM) && Value(n, t) == Ok(r.value) && Blank(ws)
            && Write(left, Spell(gap, s)) == Write(t, Spell(ws, r.rest))
    decreases Len(s), 6
  {
    var u := SkipSpace(s);
    ws := gap + Skipped(s);
    SpellConcat(gap, Skipped(s), u);
    if !AtSign(u) {
      t := left;
    } else {
      var right, gap' := ProductSound(n, u.next);
      t, ws := SumLoopSound(n, Binary(left, ws, u.c, right), gap', ParseProduct(n, u.next).rest);
    }
  }

  lemma {:induction false} ProductSound<V>(n: Numerics<V>, s: Text) returns (t: Expr, ws: string)
    requires ParseProduct(n, s).Done?
    ensures Fits(t, PRODUCT) && Fits(t, SUM) && Value(n, t) == Ok(ParseProduct(n, s).value)
    ensures Blank(ws) && s == Write(t, Spell(ws, ParseProduct(n, s).rest))
    decreases Len(s), 4
  {
    t := UnarySound(n, s);
    t, ws := ProductLoopSound(n, t, "", ParseUnary(n, s).rest);
  }

  lemma {:induction false} ProductLoopSound<V>(n: Numerics<V>, left: Expr, gap: string, s: Text)
    returns (t: Expr, ws: string)
    requires Fits(left, PRODUCT) && Fits(left, SUM) && Value(n, left).Ok? && Blank(gap)
    requires ProductLoop(n, Value(n, left).value, s).Done?
    ensures var r := ProductLoop(n, Value(n, left).value, s);
            Fits(t, PRODUCT) && Fits(t, SUM) && Value(n, t) == Ok(r.value) && Blank(ws)
            && Write(left, Spell(gap, s)) == Write(t, Spell(ws, r.rest))
    decreases Len(s), 6
  {
    var u := SkipSpace(s);
    ws := gap + Skipped(s);
    SpellConcat(gap, Skipped(s), u);
    if !AtFactorOp(u) {
      t := left;
    } else {
      var right := UnarySound(n, u.next);
      t, ws := ProductLoopSound(n, Binary(left, ws, u.c, right), "", ParseUnary(n, u.next).rest);
    }
  }

  lemma {:induction false} UnarySound<V>(n: Numerics<V>, s: Text) returns (t: Expr)
    requires ParseUnary(n, s).Done?
    ensures Fits(t, UNARY) && Fits(t, PRODUCT) && Fits(t, SUM)
    ensures Value(n, t) == Ok(ParseUnary(n, s).value)
    ensures s == Write(t, ParseUnary(n, s).rest)
    decreases Len(s), 3
  {
    var u := SkipSpace(s);
    if AtSign(u) {
      t := PrimarySound(n, u.next);
      t := Signed(Skipped(s), u.c, t);
    } else {
      PrimarySkips(n, s);
      t := PrimarySound(n, s);
    }
  }

  lemma {:induction false} PrimarySound<V>(n: Numerics<V>, s: Text) returns (t: Expr)
    requires ParsePrimary(n, s).Done?
    ensures Fits(t, OPERAND) && Value(n, t) == Ok(ParsePrimary(n, s).value)
    ensures !AtSign(SkipSpace(s)) ==> Fits(t, UNARY) && Fits(t, PRODUCT) && Fits(t, SUM)
    ensures s == Write(t, ParsePrimary(n, s).rest)
    decreases Len(s), 2
  {
    var u := SkipSpace(s);
    if u.c == '(' {
      t := ParenSound(n, s);
    } else if IsLetter(u.c) {
      t := FuncSound(n, Skipped(s), u);
    } else {
      PrimaryIsNumber(n, s, u);
      t := NumberSound(n, Skipped(s), u);
    }
  }

  lemma {:induction false} ParenSound<V>(n: Numerics<V>, s: Text) returns (t: Expr)
    requires ParsePrimary(n, s).Done? && SkipSpace(s).At? && SkipSpace(s).c == '('
    ensures t.Paren? && Fits(t, SUM) && Value(n, t) == Ok(ParsePrimary(n, s).value)
    ensures s == Write(t, ParsePrimary(n, s).rest)
    decreases Len(s), 1
  {
    var u := SkipSpace(s);
    var inner, gap := SumSound(n, u.next);
    var rest := ParseSum(n, u.next).rest;
    SpellConcat(gap, Skipped(rest), SkipSpace(rest));
    t := Paren(Skipped(s), inner, gap + Skipped(rest));
  }

  lemma NumberSound<V>(n: Numerics<V>, ws: string, u: Text) returns (t: Expr)
    requires Blank(ws) && SkipSpace(u) == u && ParseNumber(n, u).Done?
    ensures t.Number? && Fits(t, OPERAND) && (!AtSign(u) ==> Fits(t, SUM))
    ensures Value(n, t) == Ok(ParseNumber(n, u).value) && Spell(ws, u) == Write(t, ParseNumber(n, u).rest)
  {
    TakeNumberSound(u);
    t := Number(ws, TakeNumber(u).0);
  }

  lemma {:induction false} FuncSound<V>(n: Numerics<V>, ws: string, s: Text) returns (t: Expr)
    requires s.At? && IsLetter(s.c) && Blank(ws) && ParseFunc(n, s).Done?
    ensures Fits(t, OPERAND) && Fits(t, UNARY) && Fits(t, PRODUCT) && Fits(t, SUM)
    ensures Value(n, t) == Ok(ParseFunc(n, s).value)
    ensures Spell(ws, s) == Write(t, ParseFunc(n, s).rest)
    decreases Len(s), 1
  {
    var (name, after) := TakeName(s);
    TakeNameSound(s);
    if IsConstant(name) {
      KnownNameValid(n, name, []);
      t := Constant(ws, name);
    } else {
      var u := SkipSpace(after);
      var args := ArgsSound(n, u.next);
      KnownNameValid(n, name, ParseArgs(n, u.next).value);
      t := Call(ws, name, Skipped(after), args);
    }
  }

  lemma {:induction false} ArgsSound<V>(n: Numerics<V>, s: Text) returns (a: Args)
    requires ParseArgs(n, s).Done?
    ensures ArgsFit(a) && Values(n, a) == Ok(ParseArgs(n, s).value)
    ensures s == WriteArgs(a, ParseArgs(n, s).rest)
    decreases Len(s), 8
  {
    var u := SkipSpace(s);
    if u.At? && u.c == ')' {
      a := NoArgs(Skipped(s));
    } else {
      SumSkips(n, s);
      assert ArgLoop(n, u) == ArgLoop(n, s);
      a := ArgLoopSound(n, s);
    }
  }

  lemma {:induction false} ArgLoopSound<V>(n: Numerics<V>, s: Text) returns (a: Args)
    requires ArgLoop(n, s).Done?
    ensures ArgsFit(a) && !a.NoArgs? && Values(n, a) == Ok(ArgLoop(n, s).value)
    ensures s == WriteArgs(a, ArgLoop(n, s).rest)
    decreases Len(s), 6
  {
    var arg, ws := SumSound(n, s);
    var rest := ParseSum(n, s).rest;
    var u := SkipSpace(rest);
    SpellConcat(ws, Skipped(rest), u);
    if u.c == ')' {
      a := Last(arg, ws + Skipped(rest));
    } else {
      var more := ArgLoopSound(n, u.next);
      a := More(arg, ws + Skipped(rest), more);
    }
  }

  lemma {:induction false} SpellInjective(a: string, b: string)
    requires Spell(a, End) == Spell(b, End)
    ensures a == b
  {
    if a != "" && b != "" {
      SpellInjective(a[1..], b[1..]);
      assert a == [a[0]] + a[1..] && b == [b[0]] + b[1..];
    }
  }

  /** Whatever is accepted is some correctly bracketed tree followed by blanks, and the
      answer is that tree's value. */
  lemma AcceptedIsPrint<V>(n: Numerics<V>, s: string) returns (t: Expr, after: string)
    requires ParseAll(n, Spell(s, End)).Ok?
    ensures Fits(t, SUM) && Blank(after) && s == Print(t) + after
    ensures ParseAll(n, Spell(s, End)) == Value(n, t)
  {
    var ws;
    t, ws := SumSound(n, Spell(s, End));
    var rest := ParseSum(n, Spell(s, End)).rest;
    after := ws + Skipped(rest);
    SpellConcat(ws, Skipped(rest), End);
    WriteIsPrint(t, Spell(after, End));
    SpellConcat(Print(t), after, End);
    SpellInjective(s, Print(t) + after);
  }

  /** The language has one reading: two trees with the same text have the same value. */
  lemma Unambiguous<V>(n: Numerics<V>, t: Expr, u: Expr)
    requires Fits(t, SUM) && Fits(u, SUM) && Print(t) == Print(u)
    ensures Value(n, t) == Value(n, u)
  {
    assert "" + Print(t) + "" == Print(t);
    ParseOfPrint(n, "", t, "");
    ParseOfPrint(n, "", u, "");
  }
}
