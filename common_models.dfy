/**
 * The validators shared by the experiment and backend descriptions: the
 * object-path syntax of a provider or factory, the constrained integer and
 * string types, qubit pairs and angle ranges. A validator either returns the
 * validated value or reports the violations, as the model library does.
 */
module CommonModels {
  import opened Wrappers
  import opened PyStrings
  import Expressions

  /** A histogram of measured bitstrings, as the items of a dictionary. */
  type Histogram = seq<(string, int)>

  /** A raw value as it reaches a field validator. */
  datatype RawValue = RawInt(i: int) | RawFloat(f: real) | RawBool(b: bool) | RawString(s: string)

  /** One reported violation; `field` names the offending field. */
  datatype Violation =
    | NotStrictInt(field: string)
    | TooSmall(field: string)
    | NotStrictString(field: string)
    | PatternMismatch(field: string)
    | InvalidExpression(field: string)
    /** The `float` field received `None`. */
    | NoneNotAllowed(field: string)
    /** `float()` could not read what the field received. */
    | NotAFloat(field: string)
    | UnexpectedLiteral(field: string)
    | StartAfterStop
    | BoundsNotComparable
    | SeveralStepsForEqualBounds
    | QubitsNotDifferent
    | DuplicatePairs
    | WrongColonCount
    | BadModulePath
    | BadObjectName

  /**
   * A model that could not be built: either the validation errors collected
   * by the model library, or an exception that a validator raised and that
   * the library does not catch.
   */
  datatype ModelError = ValidationError(violations: seq<Violation>) | Raised(error: Expressions.EvalError)

  // ---------------------------------------------------------------- object paths

  predicate AllIdentifiers(segments: seq<string>)
  {
    forall i :: 0 <= i < |segments| ==> IsIdentifier(segments[i])
  }

  /**
   * `_check_is_correct_object_path`: exactly one colon, a dotted module path
   * of identifiers before it and an identifier after it.
   */
  function CheckIsCorrectObjectPath(path: string): (r: Result<string, Violation>)
    ensures r.Success? ==> r.value == path
    ensures r == Failure(WrongColonCount) <==> CountChar(path, ':') != 1
    ensures r.Failure? ==> r.error in {WrongColonCount, BadModulePath, BadObjectName}
  {
    var parts := Split(path, ':');
    if |parts| != 2 then Failure(WrongColonCount)
    else if !AllIdentifiers(Split(parts[0], '.')) then Failure(BadModulePath)
    else if !IsIdentifier(parts[1]) then Failure(BadObjectName)
    else Success(path)
  }

  /** Every dotted path of identifiers followed by a colon and an identifier is accepted. */
  lemma ObjectPathAccepted(segments: seq<string>, objectName: string)
    requires |segments| >= 1 && AllIdentifiers(segments) && IsIdentifier(objectName)
    ensures CheckIsCorrectObjectPath(Join(segments, '.') + [':'] + objectName).Success?
  {
    var modulePath := Join(segments, '.');
    forall i | 0 <= i < |segments|
      ensures ':' !in segments[i] && '.' !in segments[i]
    {
      IdentifierHasNoPunctuation(segments[i]);
    }
    IdentifierHasNoPunctuation(objectName);
    JoinAvoidsChar(segments, '.', ':');
    SplitAtFirstSeparator(modulePath, ':', objectName);
    SplitWithoutSeparator(objectName, ':');
    SplitJoin(segments, '.');
  }

  /** Every accepted path has that shape: the two lemmas together characterise acceptance. */
  lemma ObjectPathAcceptedShape(path: string) returns (segments: seq<string>, objectName: string)
    requires CheckIsCorrectObjectPath(path).Success?
    ensures |segments| >= 1 && AllIdentifiers(segments) && IsIdentifier(objectName)
    ensures path == Join(segments, '.') + [':'] + objectName
  {
    var parts := Split(path, ':');
    JoinSplit(path, ':');
    assert Join(parts, ':') == parts[0] + [':'] + parts[1];
    segments := Split(parts[0], '.');
    objectName := parts[1];
    JoinSplit(parts[0], '.');
  }

  /** With a single colon, the verdict depends only on the module segments and the object name. */
  lemma ObjectPathVerdict(modulePath: string, objectName: string)
    requires ':' !in modulePath && ':' !in objectName
    ensures CheckIsCorrectObjectPath(modulePath + [':'] + objectName) ==
              if !AllIdentifiers(Split(modulePath, '.')) then Failure(BadModulePath)
              else if !IsIdentifier(objectName) then Failure(BadObjectName)
              else Success(modulePath + [':'] + objectName)
  {
    SplitAtFirstSeparator(modulePath, ':', objectName);
    SplitWithoutSeparator(objectName, ':');
  }

  /** A path with two colons is rejected: "provider.path:test:xyz" in the model tests. */
  lemma TwoColonsRejected(a: string, b: string, c: string)
    requires a == "provider.path" && b == "test" && c == "xyz"
    ensures CheckIsCorrectObjectPath(a + [':'] + b + [':'] + c) == Failure(WrongColonCount)
  {
    assert a + [':'] + b + [':'] + c == a + [':'] + (b + [':'] + c);
    SplitAtFirstSeparator(a, ':', b + [':'] + c);
    SplitAtFirstSeparator(b, ':', c);
  }

  /** A module segment starting with a digit is rejected: "1provider.path:Provider". */
  lemma DigitLeadingModuleRejected(m1: string, m2: string, o: string)
    requires m1 == "1provider" && m2 == "path" && o == "Provider"
    ensures CheckIsCorrectObjectPath(m1 + ['.'] + m2 + [':'] + o) == Failure(BadModulePath)
  {
    ObjectPathVerdict(m1 + ['.'] + m2, o);
    SplitAtFirstSeparator(m1, '.', m2);
    assert Split(m1 + ['.'] + m2, '.')[0] == m1;
    assert !IsIdentifier(m1);
  }

  /** A dotted path of identifiers followed by a colon and a colon-free non-identifier is rejected for its object name. */
  lemma ObjectNameRejected(segments: seq<string>, objectName: string)
    requires |segments| >= 1 && AllIdentifiers(segments)
    requires ':' !in objectName && !IsIdentifier(objectName)
    ensures CheckIsCorrectObjectPath(Join(segments, '.') + [':'] + objectName) == Failure(BadObjectName)
  {
    forall i | 0 <= i < |segments|
      ensures ':' !in segments[i] && '.' !in segments[i]
    {
      IdentifierHasNoPunctuation(segments[i]);
    }
    JoinAvoidsChar(segments, '.', ':');
    SplitJoin(segments, '.');
    ObjectPathVerdict(Join(segments, '.'), objectName);
  }

  /** An object name starting with a digit is rejected: "provider:2Provider". */
  lemma DigitLeadingNameRejected(m: string, o: string)
    requires m == "provider" && o == "2Provider"
    ensures CheckIsCorrectObjectPath(m + [':'] + o) == Failure(BadObjectName)
  {
    assert IsIdentifier(m);
    assert !IsIdentifier(o);
    assert ':' !in o;
    assert Join([m], '.') == m;
    ObjectNameRejected([m], o);
  }

  /** An object name holding a parenthesis is rejected: "provider.path:Provider)". */
  lemma PunctuatedNameRejected(m1: string, m2: string, o: string)
    requires m1 == "provider" && m2 == "path" && o == "Provider)"
    ensures CheckIsCorrectObjectPath(m1 + ['.'] + m2 + [':'] + o) == Failure(BadObjectName)
  {
    assert IsIdentifier(m1) && IsIdentifier(m2);
    assert !IsIdentifier(o) by { assert o[8] == ')'; }
    assert ':' !in o;
    assert Join([m1, m2], '.') == m1 + ['.'] + m2;
    ObjectNameRejected([m1, m2], o);
  }

  /** The path of the mock provider, "qbench.testing:MockProvider", is accepted. */
  lemma MockProviderPathAccepted(m1: string, m2: string, o: string)
    requires m1 == "qbench" && m2 == "testing" && o == "MockProvider"
    ensures CheckIsCorrectObjectPath(m1 + ['.'] + m2 + [':'] + o).Success?
  {
    ObjectPathAccepted([m1, m2], o);
    assert Join([m1, m2], '.') == m1 + ['.'] + m2;
  }

  // ---------------------------------------------------------------- constrained types

  /** `Qubit`: a strict integer (no bool, float or string coercion) that is at least 0. */
  function ValidateQubit(v: RawValue, field: string): (r: Result<nat, Violation>)
    ensures r.Success? <==> v.RawInt? && v.i >= 0
    ensures r.Success? ==> r.value == v.i
  {
    if !v.RawInt? then Failure(NotStrictInt(field))
    else if v.i < 0 then Failure(TooSmall(field))
    else Success(v.i)
  }

  /** `StrictPositiveInt`: a strict integer greater than 0. */
  function ValidateStrictPositiveInt(v: RawValue, field: string): (r: Result<nat, Violation>)
    ensures r.Success? <==> v.RawInt? && v.i > 0
    ensures r.Success? ==> r.value == v.i && r.value > 0
  {
    if !v.RawInt? then Failure(NotStrictInt(field))
    else if v.i <= 0 then Failure(TooSmall(field))
    else Success(v.i)
  }

  predicate IsBinaryDigit(c: char)
  {
    c == '0' || c == '1'
  }

  /** A two-qubit bitstring: exactly two characters, each 0 or 1. */
  predicate IsTwoQubitBitstring(s: string)
  {
    |s| == 2 && IsBinaryDigit(s[0]) && IsBinaryDigit(s[1])
  }

  /**
   * `TwoQubitBitstring` as written: the pattern `^[01]{2}$` applied with
   * `re.match`, where `$` also matches just before a final newline.
   */
  predicate TwoQubitPatternAsWritten(s: string)
  {
    && |s| >= 2 && IsBinaryDigit(s[0]) && IsBinaryDigit(s[1])
    && (|s| == 2 || (|s| == 3 && s[2] == '\n'))
  }

  /** The as-written pattern also admits a bitstring followed by a newline. */
  lemma TwoQubitPatternAdmitsTrailingNewline()
    ensures TwoQubitPatternAsWritten("01\n")
    ensures !IsTwoQubitBitstring("01\n")
  {
  }

  /** The two differ exactly on a trailing newline: the intended check rejects nothing the pattern accepts besides those. */
  lemma TwoQubitPatternDifference(s: string)
    ensures IsTwoQubitBitstring(s) ==> TwoQubitPatternAsWritten(s)
    ensures TwoQubitPatternAsWritten(s) && !IsTwoQubitBitstring(s) <==>
              |s| == 3 && IsTwoQubitBitstring(s[..2]) && s[2] == '\n'
  {
  }

  /** `TwoQubitBitstring`, as intended: a strict string of exactly two binary digits. */
  function ValidateTwoQubitBitstring(v: RawValue, field: string): (r: Result<string, Violation>)
    ensures r.Success? <==> v.RawString? && IsTwoQubitBitstring(v.s)
    ensures r.Success? ==> r.value == v.s
  {
    if !v.RawString? then Failure(NotStrictString(field))
    else if !IsTwoQubitBitstring(v.s) then Failure(PatternMismatch(field))
    else Success(v.s)
  }

  /** `SynchronousHistogram`: two-qubit bitstrings mapped to strictly positive counts. */
  predicate IsSynchronousHistogram(h: Histogram)
  {
    forall i :: 0 <= i < |h| ==> IsTwoQubitBitstring(h[i].0) && h[i].1 > 0
  }

  // ---------------------------------------------------------------- qubit pairs

  datatype QubitsPair = QubitsPair(target: nat, ancilla: nat)

  /**
   * `QubitsPair`: both fields are qubits; only when both are valid does the
   * root validator run, rejecting equal indices.
   */
  function ValidateQubitsPair(target: RawValue, ancilla: RawValue): (r: Result<QubitsPair, ModelError>)
    ensures r.Success? <==> target.RawInt? && ancilla.RawInt? && target.i >= 0 && ancilla.i >= 0 && target.i != ancilla.i
    ensures r.Success? ==> r.value.target == target.i && r.value.ancilla == ancilla.i
    ensures r.Failure? ==> r.error.ValidationError? && |r.error.violations| > 0
  {
    var t := ValidateQubit(target, "target");
    var a := ValidateQubit(ancilla, "ancilla");
    var fieldErrors := (if t.Failure? then [t.error] else []) + (if a.Failure? then [a.error] else []);
    if |fieldErrors| > 0 then Failure(ValidationError(fieldErrors))
    else if t.value == a.value then Failure(ValidationError([QubitsNotDifferent]))
    else Success(QubitsPair(t.value, a.value))
  }

  // ---------------------------------------------------------------- angle ranges

  /**
   * An angle bound as given: an `int`, `float` or `bool`, which the
   * pre-validator passes through, or anything else, which it hands to
   * `eval_expr`.
   */
  datatype AngleInput = Number(value: real) | Expression(source: Expressions.Source)

  /**
   * `_parse_arithmetic_expression`: numbers pass through, anything else is
   * evaluated; a `TypeError` or `ValueError` from the evaluation becomes an
   * invalid-expression violation, any other exception (`SyntaxError`,
   * `KeyError`, `ZeroDivisionError`) escapes the model library.
   */
  function ParseArithmeticExpression(x: AngleInput, field: string): (r: Result<Expressions.PyValue, ModelError>)
    ensures x.Number? ==> r == Success(Expressions.Real(x.value))
    ensures x.Expression? ==> (r.Success? <==> Expressions.EvalExpr(x.source).Success?)
    ensures x.Expression? && r.Success? ==> r.value == Expressions.EvalExpr(x.source).value
    ensures x.Expression? && Expressions.EvalExpr(x.source).Failure? ==>
              var e := Expressions.EvalExpr(x.source).error;
              r == if e.TypeError? || e.ValueError? then Failure(ValidationError([InvalidExpression(field)]))
                   else Failure(Raised(e))
  {
    match x
    case Number(v) => Success(Expressions.Real(v))
    case Expression(source) =>
      match Expressions.EvalExpr(source)
      case Success(v) => Success(v)
      case Failure(e) =>
        if e.TypeError? || e.ValueError? then Failure(ValidationError([InvalidExpression(field)]))
        else Failure(Raised(e))
  }

  /** Text that does not parse escapes as `SyntaxError`; an argument that is not text is an invalid expression. */
  lemma ParseOutcomes(field: string, kind: string)
    ensures ParseArithmeticExpression(Expression(Expressions.Unparsable), field) == Failure(Raised(Expressions.SyntaxError))
    ensures ParseArithmeticExpression(Expression(Expressions.NotSource(kind)), field) == Failure(ValidationError([InvalidExpression(field)]))
  {
  }

  /**
   * The `float` field's own coercion of what the pre-validator returned: a
   * real is kept, `None` is refused, a text is read by `float()`, which is
   * the parameter `floatOfText` here, and anything else is not a float.
   */
  function CoerceFloat(v: Expressions.PyValue, field: string, floatOfText: string -> Option<real>): (r: Result<real, Violation>)
    ensures r.Success? <==> v.Real? || (v.Text? && floatOfText(v.s).Some?)
    ensures r.Success? && v.Real? ==> r.value == v.x
    ensures r.Success? && v.Text? ==> r.value == floatOfText(v.s).value
    ensures r.Failure? ==> r.error == if v.NoneValue? then NoneNotAllowed(field) else NotAFloat(field)
  {
    match v
    case Real(x) => Success(x)
    case Text(s) => if floatOfText(s).Some? then Success(floatOfText(s).value) else Failure(NotAFloat(field))
    case NoneValue => Failure(NoneNotAllowed(field))
    case _ => Failure(NotAFloat(field))
  }

  /** One bound of `AnglesRange`: the pre-validator, then the field's coercion to `float`. */
  function ValidateAngleBound(x: AngleInput, field: string, floatOfText: string -> Option<real>): (r: Result<real, ModelError>)
    ensures x.Number? ==> r == Success(x.value)
    ensures r.Success? <==>
              ParseArithmeticExpression(x, field).Success? && CoerceFloat(ParseArithmeticExpression(x, field).value, field, floatOfText).Success?
    ensures r.Success? ==> r.value == CoerceFloat(ParseArithmeticExpression(x, field).value, field, floatOfText).value
    ensures ParseArithmeticExpression(x, field).Failure? ==> r == Failure(ParseArithmeticExpression(x, field).error)
    ensures r.Failure? ==> r.error.Raised? || |r.error.violations| == 1
  {
    match ParseArithmeticExpression(x, field)
    case Failure(e) => Failure(e)
    case Success(v) =>
      match CoerceFloat(v, field, floatOfText)
      case Failure(violation) => Failure(ValidationError([violation]))
      case Success(f) => Success(f)
  }

  /**
   * What an expression of a single constant gives: a string is read as a
   * float, `None` is refused, and a complex number is not a float even with
   * a zero imaginary part.
   */
  lemma ConstantBounds(field: string, s: string, re: real, floatOfText: string -> Option<real>)
    ensures ValidateAngleBound(Expression(Expressions.Parsed(Expressions.Constant(Expressions.Text(s)))), field, floatOfText)
            == if floatOfText(s).Some? then Success(floatOfText(s).value) else Failure(ValidationError([NotAFloat(field)]))
    ensures ValidateAngleBound(Expression(Expressions.Parsed(Expressions.Constant(Expressions.NoneValue))), field, floatOfText)
            == Failure(ValidationError([NoneNotAllowed(field)]))
    ensures ValidateAngleBound(Expression(Expressions.Parsed(Expressions.Constant(Expressions.Complex(re, 0.0)))), field, floatOfText)
            == Failure(ValidationError([NotAFloat(field)]))
  {
  }

  datatype AnglesRange = AnglesRange(start: real, stop: real, numSteps: nat)

  predicate IsAnglesRange(start: real, stop: real, numSteps: int)
  {
    numSteps > 0 && start <= stop && (start == stop ==> numSteps == 1)
  }

  /**
   * `AnglesRange`: the field validators run first, in declaration order, then
   * both root validators, which only see the fields that validated; every
   * violation is collected. An exception escaping an expression aborts.
   */
  function ValidateAnglesRange(start: AngleInput, stop: AngleInput, numSteps: RawValue, floatOfText: string -> Option<real>)
    : (r: Result<AnglesRange, ModelError>)
    ensures r.Success? <==>
              && ValidateAngleBound(start, "start", floatOfText).Success?
              && ValidateAngleBound(stop, "stop", floatOfText).Success?
              && numSteps.RawInt?
              && IsAnglesRange(ValidateAngleBound(start, "start", floatOfText).value,
                               ValidateAngleBound(stop, "stop", floatOfText).value, numSteps.i)
    ensures r.Success? ==>
              && r.value.start == ValidateAngleBound(start, "start", floatOfText).value
              && r.value.stop == ValidateAngleBound(stop, "stop", floatOfText).value
              && r.value.numSteps == numSteps.i
    ensures var s := ValidateAngleBound(start, "start", floatOfText);
            var e := ValidateAngleBound(stop, "stop", floatOfText);
            && ((r.Failure? && r.error.Raised?) <==> (s.Failure? && s.error.Raised?) || (e.Failure? && e.error.Raised?))
            && (s.Failure? && s.error.Raised? ==> r == Failure(s.error))
            && (!(s.Failure? && s.error.Raised?) && e.Failure? && e.error.Raised? ==> r == Failure(e.error))
  {
    var s := ValidateAngleBound(start, "start", floatOfText);
    var e := ValidateAngleBound(stop, "stop", floatOfText);
    if s.Failure? && s.error.Raised? then Failure(s.error)
    else if e.Failure? && e.error.Raised? then Failure(e.error)
    else
      var n := ValidateStrictPositiveInt(numSteps, "num_steps");
      var startValue: Option<real> := if s.Success? then Some(s.value) else None;
      var stopValue: Option<real> := if e.Success? then Some(e.value) else None;
      var stepsValue: Option<nat> := if n.Success? then Some(n.value) else None;
      var fieldErrors :=
        (if s.Failure? then s.error.violations else [])
        + (if e.Failure? then e.error.violations else [])
        + (if n.Failure? then [n.error] else []);
      // The first root validator compares the bounds; a missing one makes the comparison fail.
      var orderErrors :=
        if startValue.Some? && stopValue.Some? then (if startValue.value > stopValue.value then [StartAfterStop] else [])
        else [BoundsNotComparable];
      // The second compares what is present, so two missing bounds count as equal.
      var stepErrors := if startValue == stopValue && stepsValue != Some(1) then [SeveralStepsForEqualBounds] else [];
      var violations := fieldErrors + orderErrors + stepErrors;
      if |violations| == 0 then Success(AnglesRange(startValue.value, stopValue.value, stepsValue.value))
      else Failure(ValidationError(violations))
  }

  /** The numeric angle ranges of the model tests. */
  lemma AnglesRangeExamples(floatOfText: string -> Option<real>)
    ensures ValidateAnglesRange(Number(2.0), Number(1.0), RawInt(3), floatOfText).error.violations == [StartAfterStop]
    ensures ValidateAnglesRange(Number(10.0), Number(10.0), RawInt(2), floatOfText).error.violations == [SeveralStepsForEqualBounds]
    ensures ValidateAnglesRange(Number(10.0), Number(10.0), RawInt(1), floatOfText) == Success(AnglesRange(10.0, 10.0, 1))
    ensures ValidateAnglesRange(Number(0.0), Number(4.0), RawInt(3), floatOfText) == Success(AnglesRange(0.0, 4.0, 3))
  {
    assert [] + [] + [] + [StartAfterStop] + [] == [StartAfterStop];
    assert [] + [] + [] + [] + [SeveralStepsForEqualBounds] == [SeveralStepsForEqualBounds];
  }

  /** The angle ranges of the model tests whose bounds are expressions. */
  lemma ExpressionAnglesExamples(floatOfText: string -> Option<real>)
    ensures ValidateAnglesRange(
              Expression(Expressions.Parsed(Expressions.BinOp(
                Expressions.UnaryOp(Expressions.USub, Expressions.Constant(Expressions.Real(2.0))), Expressions.Mult, Expressions.Name("pi")))),
              Expression(Expressions.Parsed(Expressions.BinOp(
                Expressions.Constant(Expressions.Real(3.0)), Expressions.Mult, Expressions.Name("pi")))),
              RawInt(10), floatOfText)
            == Success(AnglesRange(-2.0 * Expressions.Pi, 3.0 * Expressions.Pi, 10))
    ensures ValidateAnglesRange(
              Expression(Expressions.Parsed(Expressions.BinOp(
                Expressions.Constant(Expressions.Real(2.0)), Expressions.Mult, Expressions.Name("x")))),
              Number(4.0), RawInt(5), floatOfText).error.ValidationError?
    ensures ValidateAnglesRange(
              Number(2.0),
              Expression(Expressions.Parsed(Expressions.BinOp(
                Expressions.Constant(Expressions.Real(4.0)), Expressions.Mult, Expressions.OtherNode("List")))),
              RawInt(5), floatOfText).error.ValidationError?
  {
    Expressions.EvaluatedExamples();
  }

  // ---------------------------------------------------------------- backend descriptions

  /** The three ways the runner is told which backend to use. */
  datatype BackendDescription =
    | SimpleBackendDescription(provider: string, name: string, asynchronous: bool)
    | BackendFactoryDescription(factory: string, asynchronous: bool)
    | IBMQBackendDescription(name: string, asynchronous: bool)

  /** `SimpleBackendDescription`: the provider is an object path; `asynchronous` defaults to false. */
  function ValidateSimpleBackendDescription(provider: string, name: string, asynchronous: Option<bool>): (r: Result<BackendDescription, ModelError>)
    ensures r.Success? <==> CheckIsCorrectObjectPath(provider).Success?
    ensures r.Success? ==> r.value == SimpleBackendDescription(provider, name, asynchronous == Some(true))
    ensures r.Failure? ==> r.error == ValidationError([CheckIsCorrectObjectPath(provider).error])
  {
    match CheckIsCorrectObjectPath(provider)
    case Failure(v) => Failure(ValidationError([v]))
    case Success(p) => Success(SimpleBackendDescription(p, name, if asynchronous.Some? then asynchronous.value else false))
  }

  /** `BackendFactoryDescription`: the factory is an object path; `asynchronous` defaults to false. */
  function ValidateBackendFactoryDescription(factory: string, asynchronous: Option<bool>): (r: Result<BackendDescription, ModelError>)
    ensures r.Success? <==> CheckIsCorrectObjectPath(factory).Success?
    ensures r.Success? ==> r.value == BackendFactoryDescription(factory, asynchronous == Some(true))
    ensures r.Failure? ==> r.error == ValidationError([CheckIsCorrectObjectPath(factory).error])
  {
    match CheckIsCorrectObjectPath(factory)
    case Failure(v) => Failure(ValidationError([v]))
    case Success(f) => Success(BackendFactoryDescription(f, if asynchronous.Some? then asynchronous.value else false))
  }
}
