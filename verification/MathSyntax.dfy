// internal/tools/math_eval.go: what the arithmetic tool's input language is.
//
// An Expr is one concrete expression: the tree together with the blanks, spellings
// and parentheses it is written with.  Print gives its text, Value its meaning, and
// Fits says where precedence lets it stand without further parentheses.  None of
// this mentions the parser.
module MathSyntax {
  import opened Common

  datatype Error =
    | UnexpectedEnd | UnexpectedCharacter | DivisionByZero | ModuloByZero
    | MissingParenthesis | UnknownIdentifier | UnknownFunction | WrongArity
    | MissingCallParenthesis | ExpectedCommaOrParenthesis | ExpectedNumber | BadNumber

  /** The float64 operations the evaluator calls.  Everything below holds for any choice
      of them, so no assumption is made about rounding, infinities or NaN. */
  datatype Numerics<!V> = Numerics(
    add: (V, V) -> V,
    sub: (V, V) -> V,
    mul: (V, V) -> V,
    div: (V, V) -> V,
    mod: (V, V) -> V,
    neg: V -> V,
    isZero: V -> bool,
    pi: V,
    e: V,
    unary: (string, V) -> V,        // sqrt, abs, floor, ceil, round, log, log10
    binary: (string, V, V) -> V,    // pow, min, max
    decimal: string -> Option<V>)   // strconv.ParseFloat on a complete literal; None when out of range

  // ---- Character classes: the parser widens each byte to a rune, so these are Latin-1 ----

  predicate IsSpace(c: char) {
    9 <= c as int <= 13 || c == ' ' || c as int == 0x85 || c as int == 0xA0
  }

  predicate IsAsciiLetter(c: char) {
    'a' <= c <= 'z' || 'A' <= c <= 'Z'
  }

  predicate IsLetter(c: char) {
    || IsAsciiLetter(c)
    || c as int in {0xAA, 0xB5, 0xBA}
    || (0xC0 <= c as int <= 0xFF && c as int != 0xD7 && c as int != 0xF7)
  }

  predicate IsNameChar(c: char) {
    IsLetter(c) || IsDigit(c)
  }

  predicate IsSign(c: char) {
    c == '+' || c == '-'
  }

  predicate IsFactorOp(c: char) {
    c == '*' || c == '/' || c == '%'
  }

  ghost predicate Blank(s: string) {
    forall i | 0 <= i < |s| :: IsSpace(s[i])
  }

  ghost predicate Digits(s: string) {
    forall i | 0 <= i < |s| :: IsDigit(s[i])
  }

  function Lower(s: string): (r: string)
    ensures |r| == |s|
  {
    if s == "" then ""
    else [if 'A' <= s[0] <= 'Z' then (s[0] as int + 32) as char else s[0]] + Lower(s[1..])
  }

  // ---- Number literals ----

  /** sign whole fraction exponent, each as spelled: "-", "12", ".5", "e+3". */
  datatype Literal = Literal(sign: string, whole: string, fraction: string, exponent: string) {
    function Text(): string {
      sign + whole + fraction + exponent
    }

    predicate HasDigit() {
      |whole| > 0 || |fraction| > 1
    }

    /** Where the digits of the exponent begin. */
    function ExponentDigits(): nat {
      if |exponent| > 1 && IsSign(exponent[1]) then 2 else 1
    }

    predicate CompleteExponent() {
      exponent == "" || ExponentDigits() < |exponent|
    }

    ghost predicate Valid() {
      && (sign == "" || (|sign| == 1 && IsSign(sign[0])))
      && Digits(whole)
      && (fraction == "" || (fraction[0] == '.' && Digits(fraction[1..])))
      && (exponent == "" || ((exponent[0] == 'e' || exponent[0] == 'E')
                             && ExponentDigits() < |exponent| && Digits(exponent[ExponentDigits()..])))
      && HasDigit()
    }
  }

  /** strconv.ParseFloat: an 'e' with no digits after it is a syntax error. */
  function ParseFloat<V>(n: Numerics<V>, lit: Literal): Result<V, Error> {
    if !lit.CompleteExponent() then Err(BadNumber)
    else match n.decimal(lit.Text())
      case None => Err(BadNumber)
      case Some(v) => Ok(v)
  }

  // ---- Operators and functions ----

  /** What the two loops do with an operator and its right operand. */
  function Combine<V>(n: Numerics<V>, op: char, left: V, right: V): Result<V, Error> {
    if op == '+' then Ok(n.add(left, right))
    else if op == '-' then Ok(n.sub(left, right))
    else if op == '*' then Ok(n.mul(left, right))
    else if op == '/' then (if n.isZero(right) then Err(DivisionByZero) else Ok(n.div(left, right)))
    else if n.isZero(right) then Err(ModuloByZero) else Ok(n.mod(left, right))
  }

  predicate IsConstant(name: string) {
    Lower(name) == "pi" || Lower(name) == "e"
  }

  function ConstantValue<V>(n: Numerics<V>, name: string): V {
    if Lower(name) == "pi" then n.pi else n.e
  }

  function Apply<V>(n: Numerics<V>, name: string, args: seq<V>): Result<V, Error> {
    var f := Lower(name);
    if f in ["sqrt", "abs", "floor", "ceil", "round", "log", "log10"] then
      if |args| == 1 then Ok(n.unary(f, args[0])) else Err(WrongArity)
    else if f in ["pow", "min", "max"] then
      if |args| == 2 then Ok(n.binary(f, args[0], args[1])) else Err(WrongArity)
    else Err(UnknownFunction)
  }

  // ---- Expressions ----

  datatype Expr =
    | Number(ws: string, lit: Literal)
    | Constant(ws: string, name: string)
    | Call(ws: string, name: string, gap: string, args: Args)
    | Paren(ws: string, inner: Expr, gap: string)
    | Signed(ws: string, sign: char, operand: Expr)
    | Binary(left: Expr, ws: string, op: char, right: Expr)

  /** An argument list up to and including its closing parenthesis; ws stands before ',' or ')'. */
  datatype Args =
    | NoArgs(ws: string)
    | Last(arg: Expr, ws: string)
    | More(arg: Expr, ws: string, rest: Args)

  function Print(t: Expr): string {
    match t
    case Number(ws, lit) => ws + lit.Text()
    case Constant(ws, name) => ws + name
    case Call(ws, name, gap, args) => ws + name + gap + "(" + PrintArgs(args)
    case Paren(ws, inner, gap) => ws + "(" + Print(inner) + gap + ")"
    case Signed(ws, sign, operand) => ws + [sign] + Print(operand)
    case Binary(left, ws, op, right) => Print(left) + ws + [op] + Print(right)
  }

  function PrintArgs(a: Args): string {
    match a
    case NoArgs(ws) => ws + ")"
    case Last(arg, ws) => Print(arg) + ws + ")"
    case More(arg, ws, rest) => Print(arg) + ws + "," + PrintArgs(rest)
  }

  /** The meaning of a tree: operands left to right, the first failure wins. */
  function Value<V>(n: Numerics<V>, t: Expr): Result<V, Error> {
    match t
    case Number(_, lit) => ParseFloat(n, lit)
    case Constant(_, name) => Ok(ConstantValue(n, name))
    case Call(_, name, _, args) =>
      var values :- Values(n, args);
      Apply(n, name, values)
    case Paren(_, inner, _) => Value(n, inner)
    case Signed(_, sign, operand) =>
      var v :- Value(n, operand);
      Ok(if sign == '-' then n.neg(v) else v)
    case Binary(left, _, op, right) =>
      var l :- Value(n, left);
      var r :- Value(n, right);
      Combine(n, op, l, r)
  }

  function Values<V>(n: Numerics<V>, a: Args): Result<seq<V>, Error> {
    match a
    case NoArgs(_) => Ok([])
    case Last(arg, _) =>
      var v :- Value(n, arg);
      Ok([v])
    case More(arg, _, rest) =>
      var v :- Value(n, arg);
      var vs :- Values(n, rest);
      Ok([v] + vs)
  }

  // ---- Precedence ----

  const SUM: nat := 0       // anything
  const PRODUCT: nat := 1   // no bare + or -
  const UNARY: nat := 2     // no bare binary operator
  const OPERAND: nat := 3   // directly behind a sign: a literal may carry a second sign here

  ghost predicate ValidName(name: string) {
    && |name| > 0 && IsAsciiLetter(name[0])
    && forall i | 0 <= i < |name| :: IsAsciiLetter(name[i]) || IsDigit(name[i])
  }

  /** The tree may stand at this level without more parentheses: binary operators are
      left-associative, * / % bind tighter than + -, and a sign binds tightest. */
  ghost predicate Fits(t: Expr, level: nat) {
    match t
    case Number(ws, lit) => Blank(ws) && lit.Valid() && (lit.sign == "" || level == OPERAND)
    case Constant(ws, name) => Blank(ws) && ValidName(name) && IsConstant(name)
    case Call(ws, name, gap, args) =>
      Blank(ws) && ValidName(name) && !IsConstant(name) && Blank(gap) && ArgsFit(args)
    case Paren(ws, inner, gap) => Blank(ws) && Fits(inner, SUM) && Blank(gap)
    case Signed(ws, sign, operand) => level <= UNARY && Blank(ws) && IsSign(sign) && Fits(operand, OPERAND)
    case Binary(left, ws, op, right) =>
      && Blank(ws)
      && (if IsSign(op) then level == SUM && Fits(left, SUM) && Fits(right, PRODUCT)
          else IsFactorOp(op) && level <= PRODUCT && Fits(left, PRODUCT) && Fits(right, UNARY))
  }

  ghost predicate ArgsFit(a: Args) {
    match a
    case NoArgs(ws) => Blank(ws)
    case Last(arg, ws) => Fits(arg, SUM) && Blank(ws)
    case More(arg, ws, rest) => Fits(arg, SUM) && Blank(ws) && !rest.NoArgs? && ArgsFit(rest)
  }

  // ---- The needed parentheses ----

  /** Spelled correctly, but with no regard to precedence. */
  ghost predicate Spelled(t: Expr) {
    match t
    case Number(ws, lit) => Blank(ws) && lit.Valid() && lit.sign == ""
    case Constant(ws, name) => Blank(ws) && ValidName(name) && IsConstant(name)
    case Call(ws, name, gap, args) =>
      Blank(ws) && ValidName(name) && !IsConstant(name) && Blank(gap) && ArgsSpelled(args)
    case Paren(ws, inner, gap) => Blank(ws) && Spelled(inner) && Blank(gap)
    case Signed(ws, sign, operand) => Blank(ws) && IsSign(sign) && Spelled(operand)
    case Binary(left, ws, op, right) =>
      Blank(ws) && (IsSign(op) || IsFactorOp(op)) && Spelled(left) && Spelled(right)
  }

  ghost predicate ArgsSpelled(a: Args) {
    match a
    case NoArgs(ws) => Blank(ws)
    case Last(arg, ws) => Spelled(arg) && Blank(ws)
    case More(arg, ws, rest) => Spelled(arg) && Blank(ws) && !rest.NoArgs? && ArgsSpelled(rest)
  }

  /** The loosest level the tree's own root operator may stand at. */
  function RootLevel(t: Expr): nat {
    match t
    case Signed(_, _, _) => UNARY
    case Binary(_, _, op, _) => if IsSign(op) then SUM else PRODUCT
    case _ => OPERAND
  }

  /** Puts parentheses around exactly the subtrees whose root operator is too loose for its place. */
  function Bracket(t: Expr, level: nat): Expr
    decreases t, 1
  {
    var b := BracketInside(t);
    if level <= RootLevel(t) then b else Paren("", b, "")
  }

  function BracketInside(t: Expr): Expr
    decreases t, 0
  {
    match t
    case Number(_, _) => t
    case Constant(_, _) => t
    case Call(ws, name, gap, args) => Call(ws, name, gap, BracketArgs(args))
    case Paren(ws, inner, gap) => Paren(ws, Bracket(inner, SUM), gap)
    case Signed(ws, sign, operand) => Signed(ws, sign, Bracket(operand, OPERAND))
    case Binary(left, ws, op, right) =>
      if IsSign(op) then Binary(Bracket(left, SUM), ws, op, Bracket(right, PRODUCT))
      else Binary(Bracket(left, PRODUCT), ws, op, Bracket(right, UNARY))
  }

  function BracketArgs(a: Args): (r: Args)
    ensures r.NoArgs? <==> a.NoArgs?
    decreases a
  {
    match a
    case NoArgs(ws) => a
    case Last(arg, ws) => Last(Bracket(arg, SUM), ws)
    case More(arg, ws, rest) => More(Bracket(arg, SUM), ws, BracketArgs(rest))
  }

  /** Bracketing makes any correctly spelled tree printable at the given level. */
  lemma {:induction false} BracketFits(t: Expr, level: nat)
    requires Spelled(t) && level <= OPERAND
    ensures Fits(Bracket(t, level), level)
    decreases t, 1
  {
    BracketInsideFits(t, if level <= RootLevel(t) then level else SUM);
  }

  lemma {:induction false} BracketInsideFits(t: Expr, level: nat)
    requires Spelled(t) && level <= RootLevel(t)
    ensures Fits(BracketInside(t), level)
    decreases t, 0
  {
    match t
    case Number(_, _) =>
    case Constant(_, _) =>
    case Call(_, _, _, args) => BracketArgsFit(args);
    case Paren(_, inner, _) => BracketFits(inner, SUM);
    case Signed(_, _, operand) => BracketFits(operand, OPERAND);
    case Binary(left, _, op, right) =>
      BracketFits(left, if IsSign(op) then SUM else PRODUCT);
      BracketFits(right, if IsSign(op) then PRODUCT else UNARY);
  }

  lemma {:induction false} BracketArgsFit(a: Args)
    requires ArgsSpelled(a)
    ensures ArgsFit(BracketArgs(a))
    decreases a
  {
    match a
    case NoArgs(_) =>
    case Last(arg, _) => BracketFits(arg, SUM);
    case More(arg, _, rest) => BracketFits(arg, SUM); BracketArgsFit(rest);
  }

  /** Bracketing never changes what a tree means. */
  lemma {:induction false} BracketKeepsValue<V>(n: Numerics<V>, t: Expr, level: nat)
    ensures Value(n, Bracket(t, level)) == Value(n, t)
    decreases t, 1
  {
    match t
    case Number(_, _) =>
    case Constant(_, _) =>
    case Call(_, _, _, args) => BracketArgsKeepValues(n, args);
    case Paren(_, inner, _) => BracketKeepsValue(n, inner, SUM);
    case Signed(_, _, operand) => BracketKeepsValue(n, operand, OPERAND);
    case Binary(left, _, op, right) =>
      BracketKeepsValue(n, left, if IsSign(op) then SUM else PRODUCT);
      BracketKeepsValue(n, right, if IsSign(op) then PRODUCT else UNARY);
  }

  lemma {:induction false} BracketArgsKeepValues<V>(n: Numerics<V>, a: Args)
    ensures Values(n, BracketArgs(a)) == Values(n, a)
    decreases a, 0
  {
    match a
    case NoArgs(_) =>
    case Last(arg, _) => BracketKeepsValue(n, arg, SUM);
    case More(arg, _, rest) => BracketKeepsValue(n, arg, SUM); BracketArgsKeepValues(n, rest);
  }
}
