/** The sandboxed evaluator of calculator.py: the operator tables, the walk over Python's
    expression tree (`_eval_ast`), the replacement of the `×` and `÷` glyphs, and `safe_eval`,
    which hands the normalised text to Python's parser and evaluates the tree it returns.

    The evaluator follows ints and bools exactly, on trees shallow enough for Python's
    recursion limit: the model has no such limit, so a tree about 1000 levels deep, where the
    source raises RecursionError, still gets a value here. Where the source produces or
    consumes a Python float or complex number (a float or complex literal, true division, a
    negative exponent) the outcome is `Untracked`: the model does not say which value or
    which exception the source ends with there. */
module SafeEval {
  import PyInt

  /** The `ast.operator` classes Python's parser can put in a `BinOp`. */
  datatype BinaryOperator =
    | Add | Sub | Mult | Div | FloorDiv | Mod | Pow
    | MatMult | LShift | RShift | BitOr | BitXor | BitAnd

  /** The `ast.unaryop` classes Python's parser can put in a `UnaryOp`. */
  datatype UnaryOperator = UAdd | USub | Not | Invert

  /** The payload of an `ast.Constant`, as far as the evaluator tells payloads apart.
      `bool` is a subclass of `int` in Python, so `True` and `False` pass the numeric test.
      A complex literal such as `2j` fails that test, but it is an instance of `ast.Num` on
      the Python versions that still have that class (3.8 to 3.13), so the `ast.Num` branch
      returns it. `OtherValue` is a string, bytes, `None` or `...` payload. */
  datatype ConstantValue = IntValue(i: int) | BoolValue(b: bool) | FloatValue | ComplexValue | OtherValue

  /** Python's expression tree. `Expression` is the root `parse` returns in "eval" mode;
      `Other` is any node class the evaluator has no case for (a name, a call, a comparison, ...). */
  datatype Node =
    | Expression(body: Node)
    | Constant(value: ConstantValue)
    | UnaryOp(unaryOp: UnaryOperator, operand: Node)
    | BinOp(left: Node, op: BinaryOperator, right: Node)
    | Other(nodeType: string)

  /** The exceptions the evaluator and `safe_eval` raise. */
  datatype Error =
    | DivisionByZero        // the guard's ZeroDivisionError("division by zero")
    | ZeroToNegativePower   // the ZeroDivisionError Python's int power raises for `0 ** -k`
    | ExponentTooLarge      // ValueError("exponent too large")
    | InvalidExpression     // ValueError("Invalid expression")
    | SyntaxError           // ValueError("Syntax error"), when the parser rejects the text

  /** Whether an error is raised as a `ZeroDivisionError` (the others are `ValueError`s). */
  predicate IsZeroDivisionError(e: Error) {
    e == DivisionByZero || e == ZeroToNegativePower
  }

  /** What evaluating a tree ends with: an int, a bool, an exception, or a computation on
      floats or complex numbers that the model does not follow. A bool is kept apart from
      the int it stands for because `str` writes it as `True` or `False`. */
  datatype Outcome = Ok(value: int) | OkBool(flag: bool) | Fail(error: Error) | Untracked
  {
    /** Whether the outcome is a Python int, a bool included. */
    predicate IsInt() {
      Ok? || OkBool?
    }

    /** The integer an int or a bool stands for: `True` is 1 and `False` is 0. */
    function AsInt(): int
      requires IsInt()
    {
      if Ok? then value else if flag then 1 else 0
    }
  }

  /** `_ALLOWED_BIN_OPS`: the keys of the binary operator table. Every other operator the
      parser knows (`@`, the shifts and the bitwise operators) is left out. */
  predicate AllowedBinOp(op: BinaryOperator): (r: bool)
    ensures !r <==> op.MatMult? || op.LShift? || op.RShift? || op.BitOr? || op.BitXor? || op.BitAnd?
  {
    op in {Add, Sub, Mult, Div, FloorDiv, Mod, Pow}
  }

  /** `_ALLOWED_UNARY_OPS`: the keys of the unary operator table; `not` and `~` are left out. */
  predicate AllowedUnaryOp(op: UnaryOperator): (r: bool)
    ensures !r <==> op.Not? || op.Invert?
  {
    op == UAdd || op == USub
  }

  /** The operators the zero-divisor guard applies to. */
  predicate IsDivision(op: BinaryOperator) {
    op in {Div, FloorDiv, Mod}
  }

  /** Whether a binary operator from `ops` occurs anywhere in the tree. */
  predicate Mentions(node: Node, ops: set<BinaryOperator>) {
    match node
    case Expression(body) => Mentions(body, ops)
    case Constant(_) => false
    case UnaryOp(_, operand) => Mentions(operand, ops)
    case BinOp(left, op, right) => op in ops || Mentions(left, ops) || Mentions(right, ops)
    case Other(_) => false
  }

  /** Whether a float or complex literal occurs anywhere in the tree. */
  predicate HasInexactLiteral(node: Node) {
    match node
    case Expression(body) => HasInexactLiteral(body)
    case Constant(v) => v == FloatValue || v == ComplexValue
    case UnaryOp(_, operand) => HasInexactLiteral(operand)
    case BinOp(left, _, right) => HasInexactLiteral(left) || HasInexactLiteral(right)
    case Other(_) => false
  }

  /** Whether the tree is a bool literal, under nothing but the `Expression` root. */
  predicate IsBareBool(node: Node) {
    match node
    case Expression(body) => IsBareBool(body)
    case Constant(v) => v.BoolValue?
    case _ => false
  }

  /** Whether the tree holds a node outside the whitelist: an unknown node class, a
      non-numeric constant, or an operator missing from the tables. */
  predicate HasRejectedNode(node: Node) {
    match node
    case Expression(body) => HasRejectedNode(body)
    case Constant(v) => v == OtherValue
    case UnaryOp(op, operand) => !AllowedUnaryOp(op) || HasRejectedNode(operand)
    case BinOp(left, op, right) => !AllowedBinOp(op) || HasRejectedNode(left) || HasRejectedNode(right)
    case Other(_) => true
  }

  /** A table operator applied to the operand's outcome: `operator.pos` and `operator.neg`
      turn an int or a bool into an int of the same size, `+` keeping and `-` flipping its
      sign; an exception or an untracked value passes through. */
  function ApplyUnary(op: UnaryOperator, operand: Outcome): (r: Outcome)
    requires AllowedUnaryOp(op)
    ensures !r.OkBool?
    ensures operand.IsInt() ==> r.Ok? && PyInt.Abs(r.value) == PyInt.Abs(operand.AsInt())
    ensures operand.IsInt() && op == UAdd ==> r.value == operand.AsInt()
    ensures operand.IsInt() && op == USub ==> r.value + operand.AsInt() == 0
    ensures !operand.IsInt() ==> r == operand
  {
    if operand.IsInt() then Ok(if op == UAdd then operand.AsInt() else -operand.AsInt())
    else operand
  }

  /** The guards and then the table's operator function, on two integer operands. The
      division error comes exactly from a zero divisor of `/`, `//` or `%`, the exponent
      error exactly from an exponent over 1000 in size, Python's own ZeroDivisionError
      exactly from `0 ** -k` within the cap, and a float exactly from a true division or
      a negative exponent on another base; everything else is an int. */
  function ApplyBinary(op: BinaryOperator, a: int, b: int): (r: Outcome)
    requires AllowedBinOp(op)
    ensures r == Fail(DivisionByZero) <==> IsDivision(op) && b == 0
    ensures r == Fail(ExponentTooLarge) <==> op == Pow && PyInt.Abs(b) > 1000
    ensures r == Fail(ZeroToNegativePower) <==> op == Pow && a == 0 && -1000 <= b < 0
    ensures r.Untracked? <==> (op == Div && b != 0) || (op == Pow && a != 0 && -1000 <= b < 0)
    ensures r.Ok? || r.Fail? || r.Untracked?
    ensures r.Fail? ==> r.error in {DivisionByZero, ExponentTooLarge, ZeroToNegativePower}
  {
    if IsDivision(op) && b == 0 then Fail(DivisionByZero)
    else if op == Pow && PyInt.Abs(b) > 1000 then Fail(ExponentTooLarge)
    else
      match op
      case Add => Ok(a + b)
      case Sub => Ok(a - b)
      case Mult => Ok(a * b)
      case Div => Untracked                        // true division returns a float
      case FloorDiv => Ok(PyInt.FloorDiv(a, b))
      case Mod => Ok(PyInt.FloorMod(a, b))
      case Pow =>
        if b >= 0 then Ok(PyInt.Power(a, b))
        else if a == 0 then Fail(ZeroToNegativePower)
        else Untracked                             // a negative exponent gives a float
  }

  /** Both operands have been evaluated, the left one first; the first exception wins. A float
      on the left may itself have been an exception, so the right one's cannot be chosen then.
      A bool operand counts as its integer, and the result is never a bool. */
  function Combine(op: BinaryOperator, left: Outcome, right: Outcome): (r: Outcome)
    requires AllowedBinOp(op)
    ensures left.Fail? ==> r == left
    ensures left.IsInt() && right.Fail? ==> r == right
    ensures left.IsInt() && right.IsInt() ==> r == ApplyBinary(op, left.AsInt(), right.AsInt())
    ensures r.Untracked? ==> left.Untracked? || right.Untracked? || op in {Div, Pow}
    ensures !left.Fail? && (left.Untracked? || right.Untracked?) ==> r.Untracked?
    ensures !r.OkBool?
  {
    if left.Fail? then left
    else if left.Untracked? || right.Untracked? then Untracked
    else if right.Fail? then right
    else ApplyBinary(op, left.AsInt(), right.AsInt())
  }

  /** `_eval_ast`. Every exception comes from a node that can raise it, an untracked outcome
      from a float or complex literal, a true division or a power, and a bool only from a
      bare bool literal. */
  function Eval(node: Node): (r: Outcome)
    ensures r == Fail(DivisionByZero) ==> Mentions(node, {Div, FloorDiv, Mod})
    ensures r == Fail(ExponentTooLarge) || r == Fail(ZeroToNegativePower) ==> Mentions(node, {Pow})
    ensures r == Fail(InvalidExpression) ==> HasRejectedNode(node)
    ensures r != Fail(SyntaxError)
    ensures r.Untracked? ==> HasInexactLiteral(node) || Mentions(node, {Div, Pow})
    ensures r.OkBool? <==> IsBareBool(node)
  {
    match node
    case Expression(body) => Eval(body)
    case Constant(v) =>
      (match v
       case IntValue(i) => Ok(i)
       case BoolValue(b) => OkBool(b)
       case FloatValue => Untracked
       case ComplexValue => Untracked             // returned by the `ast.Num` branch
       case OtherValue => Fail(InvalidExpression))
    case UnaryOp(op, operand) =>
      if AllowedUnaryOp(op) then ApplyUnary(op, Eval(operand)) else Fail(InvalidExpression)
    case BinOp(left, op, right) =>
      if AllowedBinOp(op) then Combine(op, Eval(left), Eval(right)) else Fail(InvalidExpression)
    case Other(_) => Fail(InvalidExpression)
  }

  /** A tree with nothing rejected, no float or complex literal and none of `/`, `//`, `%`,
      `**` always evaluates to an int (or a bool): only the guarded operators and the rejected
      nodes can raise. */
  lemma {:induction false} RingTreesSucceed(node: Node)
    requires !HasRejectedNode(node) && !HasInexactLiteral(node)
    requires !Mentions(node, {Div, FloorDiv, Mod, Pow})
    ensures Eval(node).IsInt()
  {
    match node
    case Expression(body) => RingTreesSucceed(body);
    case Constant(_) =>
    case UnaryOp(_, operand) => RingTreesSucceed(operand);
    case BinOp(left, _, right) => RingTreesSucceed(left); RingTreesSucceed(right);
    case Other(_) =>
  }

  /** Error precedence: once the left operand has failed, its exception is the result,
      whatever the right operand and the operator would do. */
  lemma LeftFailureWins(left: Node, op: BinaryOperator, right: Node)
    requires AllowedBinOp(op) && Eval(left).Fail?
    ensures Eval(BinOp(left, op, right)) == Eval(left)
  {
  }

  /** Error precedence: with an int on the left, the right operand's exception comes before
      either guard. */
  lemma RightFailureBeforeGuards(left: Node, op: BinaryOperator, right: Node)
    requires AllowedBinOp(op) && Eval(left).IsInt() && Eval(right).Fail?
    ensures Eval(BinOp(left, op, right)) == Eval(right)
  {
  }

  /** The zero-divisor guard: with two int operands, `/`, `//` and `%` fail with the division
      error exactly when the right one is zero (`False` included), and the other operators
      never do. */
  lemma ZeroDivisorGuard(left: Node, op: BinaryOperator, right: Node)
    requires AllowedBinOp(op) && Eval(left).IsInt() && Eval(right).IsInt()
    ensures Eval(BinOp(left, op, right)) == Fail(DivisionByZero)
            <==> IsDivision(op) && Eval(right).AsInt() == 0
  {
  }

  /** The exponent cap: with two int operands, `**` fails with the exponent error exactly
      when the exponent is larger than 1000 in size; 1000 and -1000 pass. */
  lemma ExponentCap(left: Node, right: Node)
    requires Eval(left).IsInt() && Eval(right).IsInt()
    ensures Eval(BinOp(left, Pow, right)) == Fail(ExponentTooLarge)
            <==> PyInt.Abs(Eval(right).AsInt()) > 1000
    ensures Eval(right).AsInt() == 1000 ==>
              Eval(BinOp(left, Pow, right)) == Ok(PyInt.Power(Eval(left).AsInt(), 1000))
  {
  }

  /** `0 ** -k` within the cap raises Python's own ZeroDivisionError, any other base with a
      negative exponent gives a float. */
  lemma NegativeExponent(left: Node, right: Node)
    requires Eval(left).IsInt() && Eval(right).IsInt()
    requires -1000 <= Eval(right).AsInt() < 0
    ensures Eval(BinOp(left, Pow, right)) ==
            (if Eval(left).AsInt() == 0 then Fail(ZeroToNegativePower) else Untracked)
  {
  }

  /** `//` and `%` on two ints with a non-zero divisor follow Python's floor semantics:
      `a == (a // b) * b + a % b`, the remainder is zero or of the divisor's sign, and smaller. */
  lemma FloorDivisionAndModulo(left: Node, right: Node)
    requires Eval(left).IsInt() && Eval(right).IsInt() && Eval(right).AsInt() != 0
    ensures Eval(BinOp(left, FloorDiv, right)).Ok? && Eval(BinOp(left, Mod, right)).Ok?
    ensures var a, b := Eval(left).AsInt(), Eval(right).AsInt();
            var q, m := Eval(BinOp(left, FloorDiv, right)).value, Eval(BinOp(left, Mod, right)).value;
            && a == q * b + m
            && (m == 0 || (m > 0 <==> b > 0))
            && PyInt.Abs(m) < PyInt.Abs(b)
  {
  }

  /** Unary `+` gives the operand's integer (so `+True` is the int 1), unary `-` its negation;
      an exception or a float passes through both; `--x` evaluates like `+x`. */
  lemma UnaryOperators(operand: Node)
    ensures Eval(operand).IsInt() ==> Eval(UnaryOp(UAdd, operand)) == Ok(Eval(operand).AsInt())
    ensures Eval(operand).IsInt() ==> Eval(UnaryOp(USub, operand)) == Ok(-Eval(operand).AsInt())
    ensures !Eval(operand).IsInt() ==>
              Eval(UnaryOp(UAdd, operand)) == Eval(operand) && Eval(UnaryOp(USub, operand)) == Eval(operand)
    ensures Eval(UnaryOp(USub, UnaryOp(USub, operand))) == Eval(UnaryOp(UAdd, operand))
  {
  }

  /** The whitelist: a node outside it fails with "Invalid expression" and its operands are
      never evaluated, so not even their exceptions come through. A complex literal is not
      rejected: it comes back through the `ast.Num` branch. */
  lemma RejectedNodesAreInvalid(operand: Node, uop: UnaryOperator, left: Node, bop: BinaryOperator, right: Node, nodeType: string)
    ensures !AllowedUnaryOp(uop) ==> Eval(UnaryOp(uop, operand)) == Fail(InvalidExpression)
    ensures !AllowedBinOp(bop) ==> Eval(BinOp(left, bop, right)) == Fail(InvalidExpression)
    ensures Eval(Other(nodeType)) == Fail(InvalidExpression)
    ensures Eval(Constant(OtherValue)) == Fail(InvalidExpression)
    ensures Eval(Constant(ComplexValue)) == Untracked
  {
  }

  /** Python's floor division and modulo, on the trees Python parses them into: `-7 % 3` is 2, `7 // 2` is 3 and `7 // -2` is -4. */
  lemma FloorExamples()
    ensures Eval(Expression(BinOp(UnaryOp(USub, Int(7)), Mod, Int(3)))) == Ok(2)
    ensures Eval(Expression(BinOp(Int(7), FloorDiv, Int(2)))) == Ok(3)
    ensures Eval(Expression(BinOp(Int(7), FloorDiv, UnaryOp(USub, Int(2))))) == Ok(-4)
  {
  }

  /** `2 + 3 * 4` groups the product first and gives 14; `True + 1` is 2. */
  lemma ArithmeticExamples()
    ensures Eval(Expression(BinOp(Int(2), Add, BinOp(Int(3), Mult, Int(4))))) == Ok(14)
    ensures Eval(Expression(BinOp(Constant(BoolValue(true)), Add, Int(1)))) == Ok(2)
  {
  }

  /** A bare `True` stays a bool, while `+True`, `-False` and `True * 1` are ints and
      `1 // False` is a division by zero. */
  lemma BoolExamples()
    ensures Eval(Expression(Constant(BoolValue(true)))) == OkBool(true)
    ensures Eval(Expression(UnaryOp(UAdd, Constant(BoolValue(true))))) == Ok(1)
    ensures Eval(Expression(UnaryOp(USub, Constant(BoolValue(false))))) == Ok(0)
    ensures Eval(Expression(BinOp(Constant(BoolValue(true)), Mult, Int(1)))) == Ok(1)
    ensures Eval(Expression(BinOp(Int(1), FloorDiv, Constant(BoolValue(false))))) == Fail(DivisionByZero)
  {
  }

  /** `-2 ** 2` parses as `-(2 ** 2)` and gives -4; `(-2) ** 2` gives 4. */
  lemma PowerExamples()
    ensures Eval(Expression(UnaryOp(USub, BinOp(Int(2), Pow, Int(2))))) == Ok(-4)
    ensures Eval(Expression(BinOp(UnaryOp(USub, Int(2)), Pow, Int(2)))) == Ok(4)
  {
    assert PyInt.Power(2, 2) == 4;
    assert PyInt.Power(-2, 2) == 4;
  }

  /** `5 // 0`, `5 % 0` and `5 / 0` fail with the division error, `2 ** 1001` with the
      exponent error, `not 1` with "Invalid expression". */
  lemma ErrorExamples()
    ensures Eval(Expression(BinOp(Int(5), FloorDiv, Int(0)))) == Fail(DivisionByZero)
    ensures Eval(Expression(BinOp(Int(5), Mod, Int(0)))) == Fail(DivisionByZero)
    ensures Eval(Expression(BinOp(Int(5), Div, Int(0)))) == Fail(DivisionByZero)
    ensures Eval(Expression(BinOp(Int(2), Pow, Int(1001)))) == Fail(ExponentTooLarge)
    ensures Eval(Expression(UnaryOp(Not, Int(1)))) == Fail(InvalidExpression)
  {
  }

  function Int(i: int): Node {
    Constant(IntValue(i))
  }

  /** `str.replace` with a one-character pattern and replacement: every occurrence of `pattern`
      becomes `replacement`, every other character stays where it is. */
  function Replace(s: string, pattern: char, replacement: char): (r: string)
    ensures |r| == |s|
    ensures forall i :: 0 <= i < |s| ==> r[i] == (if s[i] == pattern then replacement else s[i])
  {
    if s == [] then [] else [if s[0] == pattern then replacement else s[0]] + Replace(s[1..], pattern, replacement)
  }

  const Times: char := '\U{D7}'     // ×
  const Divide: char := '\U{F7}'    // ÷

  /** The first line of `safe_eval`: `×` becomes `*` and `÷` becomes `/`. */
  function Normalize(expr: string): (r: string)
    ensures |r| == |expr|
    ensures forall i :: 0 <= i < |r| ==> r[i] != Times && r[i] != Divide
    ensures forall i :: 0 <= i < |expr| && expr[i] != Times && expr[i] != Divide ==> r[i] == expr[i]
    ensures forall i :: 0 <= i < |expr| && expr[i] == Times ==> r[i] == '*'
    ensures forall i :: 0 <= i < |expr| && expr[i] == Divide ==> r[i] == '/'
  {
    Replace(Replace(expr, Times, '*'), Divide, '/')
  }

  /** Normalising twice is normalising once. */
  lemma NormalizeIdempotent(expr: string)
    ensures Normalize(Normalize(expr)) == Normalize(expr)
  {
  }

  /** What Python's parser does with a text in "eval" mode: a tree, or a SyntaxError. */
  datatype ParseResult = Parsed(tree: Node) | SyntaxErrorRaised

  /** `safe_eval`. Python's parser `ast.parse` is not part of the model and comes in as `parse`.
      The syntax error is reported exactly when the parser rejects the normalised text, and
      a tree it returns is evaluated as it stands. */
  function Evaluate(expr: string, parse: string -> ParseResult): (r: Outcome)
    ensures r == Fail(SyntaxError) <==> parse(Normalize(expr)).SyntaxErrorRaised?
    ensures parse(Normalize(expr)).Parsed? ==> r == Eval(parse(Normalize(expr)).tree)
  {
    match parse(Normalize(expr))
    case SyntaxErrorRaised => Fail(SyntaxError)
    case Parsed(tree) => Eval(tree)
  }

  /** The glyphs make no difference: text already normalised evaluates the same way. */
  lemma EvaluateSeesOnlyNormalizedText(expr: string, parse: string -> ParseResult)
    ensures Evaluate(Normalize(expr), parse) == Evaluate(expr, parse)
  {
    NormalizeIdempotent(expr);
  }
}
