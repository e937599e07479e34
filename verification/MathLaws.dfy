// internal/tools/math_eval.go: what the arithmetic tool computes, said of texts alone.  Each law gives the
// answer for a compound text from the answers for its parts and the float64 operations.
module MathLaws {
  import opened Common
  import opened Sequences
  import opened MathSyntax
  import opened MathGrammar
  import opened MathRoundTrip
  import opened MathEval

  /** A printed tree on its own. */
  lemma Alone<V>(n: Numerics<V>, t: Expr)
    requires Fits(t, SUM)
    ensures Evaluate(n, Print(t)) == Value(n, t)
  {
    assert "" + ("" + Print(t) + "" + "") == Print(t);
    EvaluateOfPrint(n, NoSpace, "", t, "", NoSpace);
  }

  /** Anything but a signed literal directly behind a sign stands at the loosest level too. */
  lemma {:induction false} FitsLooser(t: Expr, level: nat)
    requires Fits(t, level) && level <= UNARY
    ensures Fits(t, SUM)
  {
  }

  // ---- Operators ----

  lemma OperatorAt<V>(n: Numerics<V>, l: Expr, ws: string, op: char, r: Expr)
    requires Blank(ws) && Fits(Binary(l, ws, op, r), SUM)
    ensures Evaluate(n, Print(l)) == Value(n, l) && Evaluate(n, Print(r)) == Value(n, r)
    ensures Evaluate(n, Print(l) + ws + [op] + Print(r)) == Value(n, Binary(l, ws, op, r))
  {
    FitsLooser(l, if IsSign(op) then SUM else PRODUCT);
    FitsLooser(r, if IsSign(op) then PRODUCT else UNARY);
    Alone(n, l);
    Alone(n, r);
    Alone(n, Binary(l, ws, op, r));
  }

  /** l + r and l - r, for a left operand that is a sum and a right one that is a product: the first error,
      or the sum or difference of the two values in this order. */
  lemma SumLaw<V>(n: Numerics<V>, l: Expr, ws: string, r: Expr)
    requires Blank(ws) && Fits(l, SUM) && Fits(r, PRODUCT)
    ensures var a, b := Evaluate(n, Print(l)), Evaluate(n, Print(r));
            var plus, minus := Evaluate(n, Print(l) + ws + "+" + Print(r)), Evaluate(n, Print(l) + ws + "-" + Print(r));
            && (a.Err? ==> plus == a && minus == a)
            && (a.Ok? && b.Err? ==> plus == b && minus == b)
            && (a.Ok? && b.Ok? ==> plus == Ok(n.add(a.value, b.value)) && minus == Ok(n.sub(a.value, b.value)))
  {
    OperatorAt(n, l, ws, '+', r);
    OperatorAt(n, l, ws, '-', r);
  }

  /** l * r, for a left operand that is a product and a right one that is signed or simple. */
  lemma ProductLaw<V>(n: Numerics<V>, l: Expr, ws: string, r: Expr)
    requires Blank(ws) && Fits(l, PRODUCT) && Fits(r, UNARY)
    ensures var a, b, c := Evaluate(n, Print(l)), Evaluate(n, Print(r)), Evaluate(n, Print(l) + ws + "*" + Print(r));
            && (a.Err? ==> c == a)
            && (a.Ok? && b.Err? ==> c == b)
            && (a.Ok? && b.Ok? ==> c == Ok(n.mul(a.value, b.value)))
  {
    OperatorAt(n, l, ws, '*', r);
  }

  /** l / r: a zero divisor is an error of its own. */
  lemma QuotientLaw<V>(n: Numerics<V>, l: Expr, ws: string, r: Expr)
    requires Blank(ws) && Fits(l, PRODUCT) && Fits(r, UNARY)
    ensures var a, b, c := Evaluate(n, Print(l)), Evaluate(n, Print(r)), Evaluate(n, Print(l) + ws + "/" + Print(r));
            && (a.Err? ==> c == a)
            && (a.Ok? && b.Err? ==> c == b)
            && (a.Ok? && b.Ok? && n.isZero(b.value) ==> c == Err(DivisionByZero))
            && (a.Ok? && b.Ok? && !n.isZero(b.value) ==> c == Ok(n.div(a.value, b.value)))
  {
    OperatorAt(n, l, ws, '/', r);
  }

  /** l % r. */
  lemma RemainderLaw<V>(n: Numerics<V>, l: Expr, ws: string, r: Expr)
    requires Blank(ws) && Fits(l, PRODUCT) && Fits(r, UNARY)
    ensures var a, b, c := Evaluate(n, Print(l)), Evaluate(n, Print(r)), Evaluate(n, Print(l) + ws + "%" + Print(r));
            && (a.Err? ==> c == a)
            && (a.Ok? && b.Err? ==> c == b)
            && (a.Ok? && b.Ok? && n.isZero(b.value) ==> c == Err(ModuloByZero))
            && (a.Ok? && b.Ok? && !n.isZero(b.value) ==> c == Ok(n.mod(a.value, b.value)))
  {
    OperatorAt(n, l, ws, '%', r);
  }

  /** A sign in front of something that carries none itself. */
  lemma SignLaw<V>(n: Numerics<V>, ws: string, t: Expr)
    requires Blank(ws) && Fits(t, OPERAND) && Fits(t, SUM)
    ensures var a := Evaluate(n, Print(t));
            && Evaluate(n, ws + "+" + Print(t)) == a
            && Evaluate(n, ws + "-" + Print(t)) == (if a.Err? then a else Ok(n.neg(a.value)))
  {
    Alone(n, t);
    Alone(n, Signed(ws, '+', t));
    Alone(n, Signed(ws, '-', t));
  }

  /** Parentheses change nothing. */
  lemma ParenthesisLaw<V>(n: Numerics<V>, ws: string, t: Expr, gap: string)
    requires Blank(ws) && Fits(t, SUM) && Blank(gap)
    ensures Evaluate(n, ws + "(" + Print(t) + gap + ")") == Evaluate(n, Print(t))
  {
    Alone(n, t);
    Alone(n, Paren(ws, t, gap));
  }

  // ---- Numbers ----

  ghost predicate AllDigits(s: string) {
    s != "" && forall i | 0 <= i < |s| :: '0' <= s[i] <= '9'
  }

  /** Digits, with or without digits behind a point, read as a decimal number; one out of range is an
      error. */
  lemma NumberLaw<V>(n: Numerics<V>, whole: string, part: string)
    requires AllDigits(whole) && AllDigits(part)
    ensures Evaluate(n, whole) == ReadAs(n, whole) && Evaluate(n, whole + "." + part) == ReadAs(n, whole + "." + part)
  {
    NumberTexts(whole, part);
    LiteralLaw(n, Literal("", whole, "", ""));
    LiteralLaw(n, Literal("", whole, "." + part, ""));
  }

  lemma NumberTexts(whole: string, part: string)
    ensures "" + whole + "" + "" == whole && "" + whole + ("." + part) + "" == whole + "." + part
    ensures ("." + part)[1..] == part
  {
  }

  function ReadAs<V>(n: Numerics<V>, text: string): Result<V, Error> {
    match n.decimal(text)
    case None => Err(BadNumber)
    case Some(v) => Ok(v)
  }

  lemma LiteralLaw<V>(n: Numerics<V>, lit: Literal)
    requires lit.Valid() && lit.sign == ""
    ensures Evaluate(n, lit.Text()) == ReadAs(n, lit.Text())
  {
    assert "" + lit.Text() == lit.Text();
    Alone(n, Number("", lit));
  }

  // ---- Names, in any mixture of cases ----

  ghost predicate Lowercase(s: string) {
    forall i | 0 <= i < |s| :: 'a' <= s[i] <= 'z' || '0' <= s[i] <= '9'
  }

  /** name is low with any of its letters in upper case. */
  ghost predicate CaseOf(name: string, low: string) {
    && |name| == |low| && Lowercase(low)
    && forall i | 0 <= i < |low| ::
         name[i] == low[i] || ('a' <= low[i] <= 'z' && name[i] as int == low[i] as int - 32)
  }

  lemma {:induction false} LowerOf(name: string, low: string)
    requires CaseOf(name, low)
    ensures Lower(name) == low
  {
    if name != "" {
      LowerOf(name[1..], low[1..]);
      assert low == [low[0]] + low[1..];
    }
  }

  lemma CaseName(name: string, low: string)
    requires CaseOf(name, low) && low != "" && 'a' <= low[0] <= 'z'
    ensures ValidName(name) && Lower(name) == low
  {
    LowerOf(name, low);
  }

  lemma ConstantAt<V>(n: Numerics<V>, name: string, low: string)
    requires CaseOf(name, low) && (low == "pi" || low == "e")
    ensures Evaluate(n, name) == Value(n, Constant("", name))
  {
    CaseName(name, low);
    assert "" + name == name;
    Alone(n, Constant("", name));
  }

  lemma ConstantLaw<V>(n: Numerics<V>, name: string)
    ensures CaseOf(name, "pi") ==> Evaluate(n, name) == Ok(n.pi)
    ensures CaseOf(name, "e") ==> Evaluate(n, name) == Ok(n.e)
  {
    if CaseOf(name, "pi") {
      ConstantAt(n, name, "pi");
      LowerOf(name, "pi");
    }
    if CaseOf(name, "e") {
      ConstantAt(n, name, "e");
      LowerOf(name, "e");
    }
  }

  // ---- Function calls ----

  const ONE_ARGUMENT: set<string> := {"sqrt", "abs", "floor", "ceil", "round", "log", "log10"}
  const TWO_ARGUMENTS: set<string> := {"pow", "min", "max"}

  /** A call of any name but the constants', with its values known. */
  lemma CallAt<V>(n: Numerics<V>, name: string, low: string, args: Args)
    requires CaseOf(name, low) && low != "" && 'a' <= low[0] <= 'z' && low != "pi" && low != "e" && ArgsFit(args)
    ensures Evaluate(n, name + "(" + PrintArgs(args)) == Value(n, Call("", name, "", args))
    ensures Lower(name) == low
  {
    CaseName(name, low);
    assert "" + name + "" + "(" + PrintArgs(args) == name + "(" + PrintArgs(args);
    Alone(n, Call("", name, "", args));
  }

  /** The answer c for a call with one argument that answers a: the seven functions of one argument applied
      to its value, an error for those of two, and for any other name. */
  ghost predicate OneAnswer<V>(n: Numerics<V>, low: string, a: Result<V, Error>, c: Result<V, Error>) {
    && (a.Err? ==> c == a)
    && (a.Ok? && low in ONE_ARGUMENT ==> c == Ok(n.unary(low, a.value)))
    && (a.Ok? && low in TWO_ARGUMENTS ==> c == Err(WrongArity))
    && (a.Ok? && low !in ONE_ARGUMENT + TWO_ARGUMENTS ==> c == Err(UnknownFunction))
  }

  /** The same for two arguments: pow, min and max take their values in the order written. */
  ghost predicate TwoAnswer<V>(n: Numerics<V>, low: string, a: Result<V, Error>, b: Result<V, Error>,
                               c: Result<V, Error>) {
    && (a.Err? ==> c == a)
    && (a.Ok? && b.Err? ==> c == b)
    && (a.Ok? && b.Ok? && low in TWO_ARGUMENTS ==> c == Ok(n.binary(low, a.value, b.value)))
    && (a.Ok? && b.Ok? && low in ONE_ARGUMENT ==> c == Err(WrongArity))
    && (a.Ok? && b.Ok? && low !in ONE_ARGUMENT + TWO_ARGUMENTS ==> c == Err(UnknownFunction))
  }

  lemma ValueOne<V>(n: Numerics<V>, name: string, low: string, x: Expr)
    requires Lower(name) == low
    ensures OneAnswer(n, low, Value(n, x), Value(n, Call("", name, "", Last(x, ""))))
  {
  }

  lemma ValueTwo<V>(n: Numerics<V>, name: string, low: string, x: Expr, y: Expr)
    requires Lower(name) == low
    ensures TwoAnswer(n, low, Value(n, x), Value(n, y), Value(n, Call("", name, "", More(x, "", Last(y, "")))))
  {
    var last := Last(y, "");
    assert Values(n, last) == if Value(n, y).Err? then Err(Value(n, y).error) else Ok([Value(n, y).value]);
  }

  lemma CallOneLaw<V>(n: Numerics<V>, name: string, low: string, x: Expr)
    requires CaseOf(name, low) && low != "" && 'a' <= low[0] <= 'z' && low != "pi" && low != "e" && Fits(x, SUM)
    ensures OneAnswer(n, low, Evaluate(n, Print(x)), Evaluate(n, name + "(" + Print(x) + ")"))
  {
    Alone(n, x);
    CallAt(n, name, low, Last(x, ""));
    OneText(name, Print(x));
    ValueOne(n, name, low, x);
  }

  lemma OneText(name: string, x: string)
    ensures name + "(" + (x + "" + ")") == name + "(" + x + ")"
  {
  }

  lemma CallTwoLaw<V>(n: Numerics<V>, name: string, low: string, x: Expr, y: Expr)
    requires CaseOf(name, low) && low != "" && 'a' <= low[0] <= 'z' && low != "pi" && low != "e"
    requires Fits(x, SUM) && Fits(y, SUM)
    ensures TwoAnswer(n, low, Evaluate(n, Print(x)), Evaluate(n, Print(y)),
                      Evaluate(n, name + "(" + Print(x) + "," + Print(y) + ")"))
  {
    Alone(n, x);
    Alone(n, y);
    CallAt(n, name, low, More(x, "", Last(y, "")));
    TwoText(name, Print(x), Print(y));
    ValueTwo(n, name, low, x, y);
  }

  lemma TwoText(name: string, x: string, y: string)
    ensures name + "(" + (x + "" + "," + (y + "" + ")")) == name + "(" + x + "," + y + ")"
  {
  }

  // ---- Precedence and associativity, on plain numbers ----

  /** A number of plain digits. */
  function Plain(x: string): Expr {
    Number("", Literal("", x, "", ""))
  }

  lemma PlainFits<V>(n: Numerics<V>, x: string, a: V)
    requires AllDigits(x) && n.decimal(x) == Some(a)
    ensures Fits(Plain(x), UNARY) && Fits(Plain(x), PRODUCT) && Fits(Plain(x), SUM) && Fits(Plain(x), OPERAND)
    ensures Print(Plain(x)) == x && Value(n, Plain(x)) == Ok(a)
  {
    assert "" + x + "" + "" == x && "" + x == x;
  }

  lemma Means<V>(n: Numerics<V>, t: Expr, text: string, v: Result<V, Error>)
    requires Fits(t, SUM) && Print(t) == text && Value(n, t) == v
    ensures Evaluate(n, text) == v
  {
    Alone(n, t);
  }

  lemma Joined(x: string, p: string, y: string, q: string, z: string)
    ensures x + "" + p + (y + "" + q + z) == x + p + y + q + z
    ensures x + "" + p + y + "" + q + z == x + p + y + q + z
  {
  }

  /** A product binds tighter than a sum on either side of it. */
  lemma PrecedenceLaw<V>(n: Numerics<V>, x: string, y: string, z: string, a: V, b: V, c: V)
    requires AllDigits(x) && AllDigits(y) && AllDigits(z)
    requires n.decimal(x) == Some(a) && n.decimal(y) == Some(b) && n.decimal(z) == Some(c)
    ensures Evaluate(n, x + "+" + y + "*" + z) == Ok(n.add(a, n.mul(b, c)))
    ensures Evaluate(n, x + "*" + y + "+" + z) == Ok(n.add(n.mul(a, b), c))
  {
    PlainFits(n, x, a);
    PlainFits(n, y, b);
    PlainFits(n, z, c);
    Joined(x, "+", y, "*", z);
    Joined(x, "*", y, "+", z);
    var l, m, r := Plain(x), Plain(y), Plain(z);
    Means(n, Binary(l, "", '+', Binary(m, "", '*', r)), x + "+" + y + "*" + z, Ok(n.add(a, n.mul(b, c))));
    Means(n, Binary(Binary(l, "", '*', m), "", '+', r), x + "*" + y + "+" + z, Ok(n.add(n.mul(a, b), c)));
  }

  lemma LeftToRight<V>(n: Numerics<V>, x: string, op: char, y: string, z: string, a: V, b: V, c: V)
    requires AllDigits(x) && AllDigits(y) && AllDigits(z) && (op == '-' || op == '/')
    requires n.decimal(x) == Some(a) && n.decimal(y) == Some(b) && n.decimal(z) == Some(c)
    ensures Evaluate(n, x + [op] + y + [op] + z)
            == Value(n, Binary(Binary(Plain(x), "", op, Plain(y)), "", op, Plain(z)))
  {
    PlainFits(n, x, a);
    PlainFits(n, y, b);
    PlainFits(n, z, c);
    Joined(x, [op], y, [op], z);
    Alone(n, Binary(Binary(Plain(x), "", op, Plain(y)), "", op, Plain(z)));
  }

  lemma Threefold<V>(n: Numerics<V>, x: string, y: string, z: string, a: V, b: V, c: V)
    requires AllDigits(x) && AllDigits(y) && AllDigits(z)
    requires n.decimal(x) == Some(a) && n.decimal(y) == Some(b) && n.decimal(z) == Some(c)
    ensures Value(n, Binary(Binary(Plain(x), "", '-', Plain(y)), "", '-', Plain(z))) == Ok(n.sub(n.sub(a, b), c))
    ensures !n.isZero(b) && !n.isZero(c) ==>
              Value(n, Binary(Binary(Plain(x), "", '/', Plain(y)), "", '/', Plain(z))) == Ok(n.div(n.div(a, b), c))
  {
    PlainFits(n, x, a);
    PlainFits(n, y, b);
    PlainFits(n, z, c);
  }

  /** Equals associate to the left. */
  lemma AssociationLaw<V>(n: Numerics<V>, x: string, y: string, z: string, a: V, b: V, c: V)
    requires AllDigits(x) && AllDigits(y) && AllDigits(z)
    requires n.decimal(x) == Some(a) && n.decimal(y) == Some(b) && n.decimal(z) == Some(c)
    ensures Evaluate(n, x + "-" + y + "-" + z) == Ok(n.sub(n.sub(a, b), c))
    ensures !n.isZero(b) && !n.isZero(c) ==> Evaluate(n, x + "/" + y + "/" + z) == Ok(n.div(n.div(a, b), c))
  {
    LeftToRight(n, x, '-', y, z, a, b, c);
    LeftToRight(n, x, '/', y, z, a, b, c);
    Threefold(n, x, y, z, a, b, c);
  }

  /** Tab, line feed, vertical tab, form feed, carriage return, space, next line and no-break space, as
      single bytes, may stand between the parts. */
  lemma BlanksLaw<V>(n: Numerics<V>, x: string, ws: string, y: string, a: V, b: V)
    requires AllDigits(x) && AllDigits(y) && n.decimal(x) == Some(a) && n.decimal(y) == Some(b)
    requires forall i | 0 <= i < |ws| :: ws[i] as int in {9, 10, 11, 12, 13, 32, 133, 160}
    ensures Evaluate(n, x + ws + "+" + (ws + y)) == Ok(n.add(a, b))
  {
    PlainFits(n, x, a);
    PlainFits(n, y, b);
    var r := Number(ws, Literal("", y, "", ""));
    assert "" + y + "" + "" == y;
    assert Print(r) == ws + y && Fits(r, PRODUCT) && Value(n, r) == Ok(b);
    Means(n, Binary(Plain(x), ws, '+', r), x + ws + "+" + (ws + y), Ok(n.add(a, b)));
  }

  // ---- Texts that are not expressions ----

  /** An empty input, an expression with a parenthesis too many, and one with a parenthesis never closed are
      refused, each for its own reason, unless evaluating what is there fails first. */
  lemma RefusedLaw<V>(n: Numerics<V>, t: Expr)
    requires Fits(t, SUM)
    ensures Evaluate(n, "") == Err(UnexpectedEnd)
    ensures var a := Evaluate(n, Print(t));
            && Evaluate(n, Print(t) + ")") == (if a.Err? then a else Err(UnexpectedCharacter))
            && Evaluate(n, "(" + Print(t)) == (if a.Err? then a else Err(MissingParenthesis))
  {
    Alone(n, t);
    Unopened(n, t);
    Unclosed(n, t);
  }

  lemma Unopened<V>(n: Numerics<V>, t: Expr)
    requires Fits(t, SUM)
    ensures Evaluate(n, Print(t) + ")") == if Value(n, t).Err? then Value(n, t) else Err(UnexpectedCharacter)
  {
    var s := Print(t) + ")";
    var k := PrintStarts(t, SUM);
    StartsEarlier(Print(t), k, ")");
    assert "" + s + "" == s;
    var trail := EvaluateAround(n, "", s, k, "");
    var rest := At(')', Spell(trail, End));
    SpellTwice(Print(t), ")", trail);
    WriteIsPrint(t, rest);
    SumComplete(n, t, rest);
  }

  lemma Unclosed<V>(n: Numerics<V>, t: Expr)
    requires Fits(t, SUM)
    ensures Evaluate(n, "(" + Print(t)) == if Value(n, t).Err? then Value(n, t) else Err(MissingParenthesis)
  {
    var s := "(" + Print(t);
    PrintEnds(t, SUM);
    assert "" + s + "" == s;
    var trail := EvaluateAround(n, "", s, 0, "");
    SpellTwice("(", Print(t), trail);
    WriteIsPrint(t, Spell(trail, End));
    SkipBlank(trail, End);
    SumComplete(n, t, Spell(trail, End));
    OpensWith(n, Spell("" + s + trail, End), Write(t, Spell(trail, End)));
  }

  /** An opening parenthesis and an error inside, or no closing one. */
  lemma OpensWith<V>(n: Numerics<V>, s: Text, inner: Text)
    requires s == At('(', inner)
    requires ParseSum(n, inner).Done? ==> ParseSum(n, inner).rest == End
    ensures ParseAll(n, s) == Err(if ParseSum(n, inner).Failed? then ParseSum(n, inner).error else MissingParenthesis)
  {
    assert ParsePrimary(n, s).Failed?;
    assert ParseUnary(n, s).Failed?;
    assert ParseProduct(n, s).Failed?;
  }

  lemma SpellTwice(a: string, b: string, c: string)
    ensures Spell("" + (a + b) + c, End) == Spell(a, Spell(b, Spell(c, End)))
  {
    assert "" + (a + b) + c == a + (b + c);
    SpellConcat(a, b + c, End);
    SpellConcat(b, c, End);
  }
}
