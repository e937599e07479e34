// internal/tools/math_eval.go: the parser as functions on the unread input, and the
// proof that parsing a printed tree yields the tree's value.
module MathGrammar {
  import opened Common
  import opened MathSyntax

  /** The input still to be read. */
  datatype Text = End | At(c: char, next: Text)

  function Len(t: Text): nat {
    match t case End => 0 case At(_, next) => 1 + Len(next)
  }

  /** The unread input spelled by a string and then more. */
  function Spell(s: string, rest: Text): Text {
    if s == "" then rest else At(s[0], Spell(s[1..], rest))
  }

  /** A parse step: a value and what is left to read, or an error. */
  datatype Parse<V> = Done(value: V, rest: Text) | Failed(error: Error)

  function SkipSpace(t: Text): (r: Text)
    ensures Len(r) <= Len(t)
    ensures r.End? || !IsSpace(r.c)
  {
    if t.At? && IsSpace(t.c) then SkipSpace(t.next) else t
  }

  predicate AtSign(t: Text) {
    t.At? && IsSign(t.c)
  }

  predicate AtFactorOp(t: Text) {
    t.At? && IsFactorOp(t.c)
  }

  // ---- Lexing ----

  function TakeDigits(t: Text): (r: (string, Text))
    ensures Len(r.1) + |r.0| == Len(t) && Digits(r.0)
  {
    if t.At? && IsDigit(t.c) then
      var r := TakeDigits(t.next);
      ([t.c] + r.0, r.1)
    else ("", t)
  }

  function TakeSign(t: Text): (r: (string, Text))
    ensures Len(r.1) + |r.0| == Len(t) && (r.0 == "" || (|r.0| == 1 && IsSign(r.0[0])))
  {
    if AtSign(t) then ([t.c], t.next) else ("", t)
  }

  function TakeFraction(t: Text): (r: (string, Text))
    ensures Len(r.1) + |r.0| == Len(t)
  {
    if t.At? && t.c == '.' then
      var r := TakeDigits(t.next);
      ("." + r.0, r.1)
    else ("", t)
  }

  function TakeExponent(t: Text): (r: (string, Text))
    ensures Len(r.1) + |r.0| == Len(t)
  {
    if t.At? && (t.c == 'e' || t.c == 'E') then
      var sign := TakeSign(t.next);
      var digits := TakeDigits(sign.1);
      ([t.c] + sign.0 + digits.0, digits.1)
    else ("", t)
  }

  /** The longest literal-shaped prefix, cut into its parts. */
  function TakeNumber(t: Text): (r: (Literal, Text))
    ensures Len(r.1) <= Len(t)
    ensures r.0.HasDigit() ==> Len(r.1) < Len(t)
  {
    var sign := TakeSign(t);
    var whole := TakeDigits(sign.1);
    var fraction := TakeFraction(whole.1);
    var exponent := TakeExponent(fraction.1);
    (Literal(sign.0, whole.0, fraction.0, exponent.0), exponent.1)
  }

  function TakeName(t: Text): (r: (string, Text))
    ensures Len(r.1) + |r.0| == Len(t)
    ensures t.At? && IsLetter(t.c) ==> r.0 != ""
  {
    if t.At? && IsNameChar(t.c) then
      var r := TakeName(t.next);
      ([t.c] + r.0, r.1)
    else ("", t)
  }

  // ---- The recursive descent ----

  function ParseSum<V>(n: Numerics<V>, s: Text): (r: Parse<V>)
    ensures r.Done? ==> Len(r.rest) < Len(s)
    decreases Len(s), 5
  {
    match ParseProduct(n, s)
    case Failed(e) => Failed(e)
    case Done(v, rest) => SumLoop(n, v, rest)
  }

  function SumLoop<V>(n: Numerics<V>, left: V, s: Text): (r: Parse<V>)
    ensures r.Done? ==> Len(r.rest) <= Len(s)
    decreases Len(s), 6
  {
    var t := SkipSpace(s);
    if !AtSign(t) then Done(left, t)
    else match ParseProduct(n, t.next)
      case Failed(e) => Failed(e)
      case Done(right, rest) =>
        match Combine(n, t.c, left, right)
        case Err(e) => Failed(e)
        case Ok(v) => SumLoop(n, v, rest)
  }

  function ParseProduct<V>(n: Numerics<V>, s: Text): (r: Parse<V>)
    ensures r.Done? ==> Len(r.rest) < Len(s)
    decreases Len(s), 4
  {
    match ParseUnary(n, s)
    case Failed(e) => Failed(e)
    case Done(v, rest) => ProductLoop(n, v, rest)
  }

  function ProductLoop<V>(n: Numerics<V>, left: V, s: Text): (r: Parse<V>)
    ensures r.Done? ==> Len(r.rest) <= Len(s)
    decreases Len(s), 6
  {
    var t := SkipSpace(s);
    if !AtFactorOp(t) then Done(left, t)
    else match ParseUnary(n, t.next)
      case Failed(e) => Failed(e)
      case Done(right, rest) =>
        match Combine(n, t.c, left, right)
        case Err(e) => Failed(e)
        case Ok(v) => ProductLoop(n, v, rest)
  }

  function ParseUnary<V>(n: Numerics<V>, s: Text): (r: Parse<V>)
    ensures r.Done? ==> Len(r.rest) < Len(s)
    decreases Len(s), 3
  {
    var t := SkipSpace(s);
    if AtSign(t) then
      match ParsePrimary(n, t.next)
      case Failed(e) => Failed(e)
      case Done(v, rest) => Done(if t.c == '-' then n.neg(v) else v, rest)
    else ParsePrimary(n, t)
  }

  function ParsePrimary<V>(n: Numerics<V>, s: Text): (r: Parse<V>)
    ensures r.Done? ==> Len(r.rest) < Len(s)
    decreases Len(s), 2
  {
    var t := SkipSpace(s);
    if t.End? then Failed(UnexpectedEnd)
    else if t.c == '(' then
      match ParseSum(n, t.next)
      case Failed(e) => Failed(e)
      case Done(v, rest) =>
        var u := SkipSpace(rest);
        if u.End? || u.c != ')' then Failed(MissingParenthesis) else Done(v, u.next)
    else if IsLetter(t.c) then ParseFunc(n, t)
    else ParseNumber(n, t)
  }

  function ParseFunc<V>(n: Numerics<V>, s: Text): (r: Parse<V>)
    requires s.At? && IsLetter(s.c)
    ensures r.Done? ==> Len(r.rest) < Len(s)
    decreases Len(s), 1
  {
    var (name, after) := TakeName(s);
    if IsConstant(name) then Done(ConstantValue(n, name), after)
    else
      var t := SkipSpace(after);
      if t.End? || t.c != '(' then Failed(UnknownIdentifier)
      else match ParseArgs(n, t.next)
        case Failed(e) => Failed(e)
        case Done(args, rest) =>
          match Apply(n, name, args)
          case Err(e) => Failed(e)
          case Ok(v) => Done(v, rest)
  }

  function ParseArgs<V>(n: Numerics<V>, s: Text): (r: Parse<seq<V>>)
    ensures r.Done? ==> Len(r.rest) < Len(s)
    decreases Len(s), 7
  {
    var t := SkipSpace(s);
    if t.At? && t.c == ')' then Done([], t.next)
    else ArgLoop(n, t)
  }

  /** The values of the arguments still to be read. */
  function ArgLoop<V>(n: Numerics<V>, s: Text): (r: Parse<seq<V>>)
    ensures r.Done? ==> Len(r.rest) < Len(s)
    decreases Len(s), 6
  {
    match ParseSum(n, s)
    case Failed(e) => Failed(e)
    case Done(v, rest) =>
      var t := SkipSpace(rest);
      if t.End? then Failed(MissingCallParenthesis)
      else if t.c == ')' then Done([v], t.next)
      else if t.c != ',' then Failed(ExpectedCommaOrParenthesis)
      else Prefixed([v], ArgLoop(n, t.next))
  }

  function Prefixed<V>(vs: seq<V>, p: Parse<seq<V>>): (r: Parse<seq<V>>)
    ensures r.Done? <==> p.Done?
    ensures r.Done? ==> r.rest == p.rest
  {
    match p
    case Failed(e) => Failed(e)
    case Done(more, rest) => Done(vs + more, rest)
  }

  function ParseNumber<V>(n: Numerics<V>, s: Text): (r: Parse<V>)
    ensures r.Done? ==> Len(r.rest) < Len(s)
  {
    var (lit, rest) := TakeNumber(SkipSpace(s));
    if !lit.HasDigit() then Failed(ExpectedNumber)
    else match ParseFloat(n, lit)
      case Err(e) => Failed(e)
      case Ok(v) => Done(v, rest)
  }

  /** The whole of evalExpr once the ends are trimmed: one sum, then blanks, then the end. */
  function ParseAll<V>(n: Numerics<V>, s: Text): Result<V, Error> {
    match ParseSum(n, s)
    case Failed(e) => Err(e)
    case Done(v, rest) => if SkipSpace(rest).End? then Ok(v) else Err(UnexpectedCharacter)
  }

  // ---- The text of a printed tree ----

  function Write(t: Expr, rest: Text): Text
    decreases t
  {
    match t
    case Number(ws, lit) => Spell(ws, WriteLiteral(lit, rest))
    case Constant(ws, name) => Spell(ws, Spell(name, rest))
    case Call(ws, name, gap, args) => Spell(ws, Spell(name, Spell(gap, At('(', WriteArgs(args, rest)))))
    case Paren(ws, inner, gap) => Spell(ws, At('(', Write(inner, Spell(gap, At(')', rest)))))
    case Signed(ws, sign, operand) => Spell(ws, At(sign, Write(operand, rest)))
    case Binary(left, ws, op, right) => Write(left, Spell(ws, At(op, Write(right, rest))))
  }

  function WriteLiteral(lit: Literal, rest: Text): Text {
    Spell(lit.sign, Spell(lit.whole, Spell(lit.fraction, Spell(lit.exponent, rest))))
  }

  function WriteArgs(a: Args, rest: Text): Text
    decreases a
  {
    match a
    case NoArgs(ws) => Spell(ws, At(')', rest))
    case Last(arg, ws) => Write(arg, Spell(ws, At(')', rest)))
    case More(arg, ws, more) => Write(arg, Spell(ws, At(',', WriteArgs(more, rest))))
  }

  lemma {:induction false} SpellConcat(a: string, b: string, rest: Text)
    ensures Spell(a + b, rest) == Spell(a, Spell(b, rest))
  {
    if a == "" {
      assert a + b == b;
    } else {
      assert (a + b)[1..] == a[1..] + b;
      SpellConcat(a[1..], b, rest);
    }
  }

  /** Write is Print, as unread input. */
  lemma {:induction false} WriteIsPrint(t: Expr, rest: Text)
    ensures Write(t, rest) == Spell(Print(t), rest)
    decreases t
  {
    match t
    case Number(ws, lit) =>
      SpellConcat(lit.sign, lit.whole, Spell(lit.fraction, Spell(lit.exponent, rest)));
      SpellConcat(lit.sign + lit.whole, lit.fraction, Spell(lit.exponent, rest));
      SpellConcat(lit.sign + lit.whole + lit.fraction, lit.exponent, rest);
      SpellConcat(ws, lit.Text(), rest);
    case Constant(ws, name) =>
      SpellConcat(ws, name, rest);
    case Call(ws, name, gap, args) =>
      WriteArgsIsPrint(args, rest);
      var inner := Spell(PrintArgs(args), rest);
      SpellConcat(ws, name, Spell(gap, Spell("(", inner)));
      SpellConcat(ws + name, gap, Spell("(", inner));
      SpellConcat(ws + name + gap, "(", inner);
      SpellConcat(ws + name + gap + "(", PrintArgs(args), rest);
    case Paren(ws, inner, gap) =>
      WriteIsPrint(inner, Spell(gap, Spell(")", rest)));
      SpellConcat(ws, "(", Spell(Print(inner), Spell(gap, Spell(")", rest))));
      SpellConcat(ws + "(", Print(inner), Spell(gap, Spell(")", rest)));
      SpellConcat(ws + "(" + Print(inner), gap, Spell(")", rest));
      SpellConcat(ws + "(" + Print(inner) + gap, ")", rest);
    case Signed(ws, sign, operand) =>
      WriteIsPrint(operand, rest);
      SpellConcat(ws, [sign], Spell(Print(operand), rest));
      SpellConcat(ws + [sign], Print(operand), rest);
    case Binary(left, ws, op, right) =>
      WriteIsPrint(right, rest);
      WriteIsPrint(left, Spell(ws, Spell([op], Spell(Print(right), rest))));
      SpellConcat(Print(left), ws, Spell([op], Spell(Print(right), rest)));
      SpellConcat(Print(left) + ws, [op], Spell(Print(right), rest));
      SpellConcat(Print(left) + ws + [op], Print(right), rest);
  }

  lemma {:induction false} WriteArgsIsPrint(a: Args, rest: Text)
    ensures WriteArgs(a, rest) == Spell(PrintArgs(a), rest)
    decreases a
  {
    match a
    case NoArgs(ws) =>
      SpellConcat(ws, ")", rest);
    case Last(arg, ws) =>
      WriteIsPrint(arg, Spell(ws, Spell(")", rest)));
      SpellConcat(Print(arg), ws, Spell(")", rest));
      SpellConcat(Print(arg) + ws, ")", rest);
    case More(arg, ws, more) =>
      WriteArgsIsPrint(more, rest);
      var tail := Spell(PrintArgs(more), rest);
      WriteIsPrint(arg, Spell(ws, Spell(",", tail)));
      SpellConcat(Print(arg), ws, Spell(",", tail));
      SpellConcat(Print(arg) + ws, ",", tail);
      SpellConcat(Print(arg) + ws + ",", PrintArgs(more), rest);
  }
}
