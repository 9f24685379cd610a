/**
 * The restricted arithmetic evaluator used for angle bounds: constants, the
 * binary operators + - * /, unary minus and the name `pi`, evaluated over a
 * Python expression tree. Arithmetic is exact (reals), not IEEE doubles.
 */
module Expressions {
  import opened Wrappers

  /** Operators of a Python `ast.BinOp`; only the first four have an entry in the operator map. */
  datatype BinaryOperator = Add | Sub | Mult | Div | FloorDiv | Mod | Pow | MatMult | BitOperator

  /** Operators of a Python `ast.UnaryOp`; only unary minus has an entry in the operator map. */
  datatype UnaryOperator = USub | UAdd | Not | Invert

  /**
   * A value an `ast.Constant` holds or an operator computes. An `int`,
   * `float` or `bool` is the real number it denotes (`True` is 1); a `str`
   * or `bytes` constant is kept as its text; `None` and `...` are the other
   * constants Python's parser produces.
   */
  datatype PyValue =
    | Real(x: real)
    | Complex(re: real, im: real)
    | Text(s: string)
    | NoneValue
    | EllipsisValue

  /** The part of Python's expression tree the evaluator dispatches on. */
  datatype Node =
    | Constant(value: PyValue)
    | BinOp(left: Node, op: BinaryOperator, right: Node)
    | UnaryOp(unaryOp: UnaryOperator, operand: Node)
    | Name(id: string)
    /** Any other node kind (a list, a call, a subscript, ...), named by its class. */
    | OtherNode(kind: string)

  /** The argument of `eval_expr`, as `ast.parse(expr, mode="eval")` receives it. */
  datatype Source =
    /** A `str` (or `bytes`) holding a Python expression; `body` is its tree. */
    | Parsed(body: Node)
    /** A `str` (or `bytes`) that is not a Python expression. */
    | Unparsable
    /** Anything that is neither text nor a tree, such as `None` or a list, named by its type. */
    | NotSource(kind: string)

  /** The exceptions `eval_expr` can raise. */
  datatype EvalError =
    | TypeError(message: string)
    | ValueError(message: string)
    /** The operator has no entry in the operator map. */
    | KeyError
    | ZeroDivisionError
    /** `ast.parse` rejected the text. */
    | SyntaxError

  /** `numpy.pi`, the double nearest to pi, written as the exact binary fraction it is. */
  const Pi: real := 884279719003555.0 / 281474976710656.0

  predicate InOperatorMap(op: BinaryOperator)
  {
    op == Add || op == Sub || op == Mult || op == Div
  }

  /** The values Python's arithmetic operators accept. */
  predicate IsNumber(v: PyValue)
  {
    v.Real? || v.Complex?
  }

  /** A number as the complex number Python promotes it to when the other operand is complex. */
  function AsComplex(v: PyValue): (real, real)
    requires IsNumber(v)
  {
    if v.Real? then (v.x, 0.0) else (v.re, v.im)
  }

  function ApplyReal(op: BinaryOperator, x: real, y: real): (r: Result<PyValue, EvalError>)
    requires InOperatorMap(op)
    ensures r.Failure? <==> op == Div && y == 0.0
    ensures r.Failure? ==> r.error == ZeroDivisionError
    ensures r.Success? ==> r.value.Real?
  {
    match op
    case Add => Success(Real(x + y))
    case Sub => Success(Real(x - y))
    case Mult => Success(Real(x * y))
    case Div => if y == 0.0 then Failure(ZeroDivisionError) else Success(Real(x / y))
  }

  /**
   * Complex arithmetic on `a + bi` and `c + di`. Division raises when the
   * divisor's squared modulus `c*c + d*d` is zero, which over the reals is
   * exactly when `c` and `d` are both zero.
   */
  function ApplyComplex(op: BinaryOperator, a: real, b: real, c: real, d: real): (r: Result<PyValue, EvalError>)
    requires InOperatorMap(op)
    ensures r.Failure? ==> op == Div && r.error == ZeroDivisionError
    ensures r.Success? ==> r.value.Complex?
    ensures op == Div && c == 0.0 && d == 0.0 ==> r == Failure(ZeroDivisionError)
  {
    match op
    case Add => Success(Complex(a + c, b + d))
    case Sub => Success(Complex(a - c, b - d))
    case Mult => Success(Complex(a * c - b * d, a * d + b * c))
    case Div =>
      var n := c * c + d * d;
      if n == 0.0 then Failure(ZeroDivisionError)
      else Success(Complex((a * c + b * d) / n, (b * c - a * d) / n))
  }

  /**
   * A mapped binary operator on two values: real arithmetic on two reals,
   * complex arithmetic once either side is complex, and a `TypeError` for
   * any operand that is not a number.
   */
  function Apply(op: BinaryOperator, x: PyValue, y: PyValue): (r: Result<PyValue, EvalError>)
    requires InOperatorMap(op)
    ensures r.Success? ==> IsNumber(x) && IsNumber(y) && IsNumber(r.value)
    ensures r.Success? && r.value.Complex? ==> x.Complex? || y.Complex?
    ensures r.Failure? && r.error.TypeError? <==> !(IsNumber(x) && IsNumber(y))
    ensures r.Failure? && !r.error.TypeError? ==> op == Div && r.error == ZeroDivisionError
    ensures op != Div && IsNumber(x) && IsNumber(y) ==> r.Success?
  {
    if x.Real? && y.Real? then ApplyReal(op, x.x, y.x)
    else if IsNumber(x) && IsNumber(y) then ApplyComplex(op, AsComplex(x).0, AsComplex(x).1, AsComplex(y).0, AsComplex(y).1)
    else Failure(TypeError("unsupported operand type(s)"))
  }

  /** Unary minus: numbers are negated, anything else raises `TypeError`. */
  function Negate(v: PyValue): (r: Result<PyValue, EvalError>)
    ensures r.Success? <==> IsNumber(v)
    ensures r.Success? ==> (r.value.Real? <==> v.Real?) && IsNumber(r.value)
    ensures r.Failure? ==> r.error.TypeError?
  {
    match v
    case Real(x) => Success(Real(-x))
    case Complex(re, im) => Success(Complex(-re, -im))
    case _ => Failure(TypeError("bad operand type for unary -"))
  }

  /** The trees built only from what the evaluator supports: numeric constants, mapped operators and `pi`. */
  predicate Supported(node: Node)
  {
    match node
    case Constant(v) => IsNumber(v)
    case BinOp(l, op, r) => InOperatorMap(op) && Supported(l) && Supported(r)
    case UnaryOp(op, e) => op == USub && Supported(e)
    case Name(id) => id == "pi"
    case OtherNode(_) => false
  }

  /** The trees that evaluate when nothing divides by zero: a bare constant of any kind, or a supported tree. */
  predicate Evaluable(node: Node)
  {
    node.Constant? || Supported(node)
  }

  predicate DivisionFree(node: Node)
  {
    match node
    case Constant(_) => true
    case BinOp(l, op, r) => op != Div && DivisionFree(l) && DivisionFree(r)
    case UnaryOp(_, e) => DivisionFree(e)
    case Name(_) => true
    case OtherNode(_) => true
  }

  predicate HasComplexConstant(node: Node)
  {
    match node
    case Constant(v) => v.Complex?
    case BinOp(l, _, r) => HasComplexConstant(l) || HasComplexConstant(r)
    case UnaryOp(_, e) => HasComplexConstant(e)
    case Name(_) => false
    case OtherNode(_) => false
  }

  /**
   * `_eval_node`. The operator is looked up before the operands are
   * evaluated, and the left operand before the right one, so the first error
   * in that order is the one raised.
   */
  function EvalNode(node: Node): (r: Result<PyValue, EvalError>)
    ensures r.Success? ==> Evaluable(node)
    ensures DivisionFree(node) ==> (r.Success? <==> Evaluable(node))
    ensures DivisionFree(node) && r.Failure? ==> r.error != ZeroDivisionError
    ensures r.Success? && Supported(node) ==> IsNumber(r.value)
    ensures r.Success? && !node.Constant? ==> IsNumber(r.value)
    ensures r.Success? && r.value.Complex? ==> HasComplexConstant(node)
  {
    match node
    case Constant(v) => Success(v)
    case BinOp(l, op, r) =>
      if !InOperatorMap(op) then Failure(KeyError)
      else (
        match EvalNode(l)
        case Failure(e) => Failure(e)
        case Success(x) => (
          match EvalNode(r)
          case Failure(e) => Failure(e)
          case Success(y) => Apply(op, x, y)))
    case UnaryOp(op, e) =>
      if op != USub then Failure(KeyError)
      else (
        match EvalNode(e)
        case Failure(err) => Failure(err)
        case Success(x) => Negate(x))
    case Name(id) =>
      if id == "pi" then Success(Real(Pi)) else Failure(ValueError("Unknown name: " + id))
    case OtherNode(kind) => Failure(TypeError("Unsupported node type " + kind))
  }

  /** `eval_expr`: text that does not parse raises `SyntaxError`, an argument that is not text raises `TypeError`. */
  function EvalExpr(source: Source): (r: Result<PyValue, EvalError>)
    ensures source.Parsed? ==> r == EvalNode(source.body)
    ensures source.Unparsable? ==> r == Failure(SyntaxError)
    ensures source.NotSource? ==> r.Failure? && r.error.TypeError?
  {
    match source
    case Parsed(body) => EvalNode(body)
    case Unparsable => Failure(SyntaxError)
    case NotSource(kind) => Failure(TypeError("compile() arg 1 must be a string, bytes or AST object, not " + kind))
  }

  /**
   * The order of evaluation: an unmapped operator raises `KeyError` whatever
   * its operands are, then the left operand's error wins over the right's.
   */
  lemma EvaluationOrder(l: Node, op: BinaryOperator, r: Node, u: UnaryOperator)
    ensures !InOperatorMap(op) ==> EvalNode(BinOp(l, op, r)) == Failure(KeyError)
    ensures InOperatorMap(op) && EvalNode(l).Failure? ==> EvalNode(BinOp(l, op, r)) == EvalNode(l)
    ensures InOperatorMap(op) && EvalNode(l).Success? && EvalNode(r).Failure? ==> EvalNode(BinOp(l, op, r)) == EvalNode(r)
    ensures u != USub ==> EvalNode(UnaryOp(u, l)) == Failure(KeyError)
  {
  }

  /** Unary minus negates and the four operators compute their usual values on reals. */
  lemma OperatorsAreArithmetic(a: Node, b: Node, x: real, y: real)
    requires EvalNode(a) == Success(Real(x)) && EvalNode(b) == Success(Real(y))
    ensures EvalNode(UnaryOp(USub, a)) == Success(Real(-x))
    ensures EvalNode(BinOp(a, Add, b)) == Success(Real(x + y))
    ensures EvalNode(BinOp(a, Sub, b)) == Success(Real(x - y))
    ensures EvalNode(BinOp(a, Mult, b)) == Success(Real(x * y))
    ensures EvalNode(BinOp(a, Div, b)) == if y == 0.0 then Failure(ZeroDivisionError) else Success(Real(x / y))
  {
    assert ApplyReal(Mult, x, y) == Success(Real(x * y));
  }

  /** An operand that is not a number, say a string constant, makes any mapped operator raise `TypeError`. */
  lemma NonNumericOperandRaises(a: Node, op: BinaryOperator, b: Node)
    requires InOperatorMap(op) && EvalNode(a).Success? && EvalNode(b).Success?
    requires !IsNumber(EvalNode(a).value) || !IsNumber(EvalNode(b).value)
    ensures EvalNode(BinOp(a, op, b)).Failure? && EvalNode(BinOp(a, op, b)).error.TypeError?
    ensures !IsNumber(EvalNode(a).value) ==> EvalNode(UnaryOp(USub, a)).Failure? && EvalNode(UnaryOp(USub, a)).error.TypeError?
  {
  }

  /** The trees Python builds for the angle expressions of the model tests. */
  lemma EvaluatedExamples()
    ensures EvalNode(BinOp(UnaryOp(USub, Constant(Real(2.0))), Mult, Name("pi"))) == Success(Real(-2.0 * Pi))
    ensures EvalNode(BinOp(Constant(Real(3.0)), Mult, Name("pi"))) == Success(Real(3.0 * Pi))
    ensures EvalNode(BinOp(Constant(Real(2.0)), Mult, Name("x"))).error.ValueError?
    ensures EvalNode(BinOp(Constant(Real(4.0)), Mult, Name("test"))).error.ValueError?
    ensures EvalNode(BinOp(Constant(Real(4.0)), Mult, OtherNode("List"))).error.TypeError?
  {
  }

  /** Constants that are not real numbers: text is returned as it is, complex numbers multiply. */
  lemma ConstantExamples()
    ensures EvalNode(BinOp(Constant(Real(1.0)), Add, Constant(Text("a")))).error.TypeError?
    ensures EvalNode(Constant(Text("1.5"))) == Success(Text("1.5"))
    ensures EvalNode(BinOp(Constant(Complex(0.0, 1.0)), Mult, Constant(Complex(0.0, 1.0)))) == Success(Complex(-1.0, 0.0))
    ensures EvalNode(BinOp(Constant(Real(1.0)), Div, Constant(Complex(0.0, 0.0)))) == Failure(ZeroDivisionError)
    ensures EvalExpr(Unparsable) == Failure(SyntaxError)
  {
  }
}
