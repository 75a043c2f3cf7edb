/**
  * The evaluator of src/main/kotlin/Interpreter.kt: expressions are evaluated recursively to a
  * literal, runtime errors (thrown as `InterpreterResult.Error` in Kotlin) become the `Thrown`
  * outcome, and a `TODO()` that is reached becomes `Unfinished`, since Kotlin's
  * `NotImplementedError` escapes `interpret` without being caught. How a number is shown is the
  * parameter `fmt`; printed lines are collected instead of written to standard output.
  */
module Interpreting {
  import opened Util
  import opened Tokens
  import opened Ast

  /** `InterpreterResult.Error`: the offending token and the message. */
  datatype RuntimeError = RuntimeError(token: Token, message: string)

  /** What evaluating an expression gives. */
  datatype Outcome = Value(lit: Literal) | Thrown(error: RuntimeError) | Unfinished

  const NotANumber := "Operand must be a number"
  const DivisionByZero := "Division by zero"
  const NotStringOrNumber := "Operand must be a string or a number"

  /** The local `isTruthy`: only `nil` and `false` are falsy. */
  predicate IsTruthy(lit: Literal) {
    match lit
    case KwLit(Nil) => false
    case KwLit(False) => false
    case _ => true
  }

  /** The local `loxBoolean`. */
  function LoxBoolean(b: bool): (lit: Literal)
    ensures lit == KwLit(True) || lit == KwLit(False)
    ensures IsTruthy(lit) == b
  {
    if b then KwLit(True) else KwLit(False)
  }

  /** The token of an error raised by an operator: the operator, its text, and the expression's line. */
  function OperatorToken(op: Symbol, line: nat): Token {
    Token(Sym(op), op.Text(), line)
  }

  /** The operators whose operands `expectDouble` checks. */
  predicate IsNumericOp(op: Symbol) {
    op in {Minus, Asterisk, Slash, GreaterThan, GreaterThanOrEqual, LessThan, LessThanOrEqual}
  }

  /** A numeric operator applied to two numbers; only `/` by zero fails. */
  function NumberOperator(op: BinaryOp, a: real, b: real, line: nat): Outcome
    requires IsNumericOp(op)
  {
    if op == Asterisk then Value(LoxNumber(a * b))
    else if op == Slash then
      (if b != 0.0 then Value(LoxNumber(a / b)) else Thrown(RuntimeError(OperatorToken(op, line), DivisionByZero)))
    else if op == Minus then Value(LoxNumber(a - b))
    else if op == GreaterThan then Value(LoxBoolean(a > b))
    else if op == GreaterThanOrEqual then Value(LoxBoolean(a >= b))
    else if op == LessThan then Value(LoxBoolean(a < b))
    else Value(LoxBoolean(a <= b))
  }

  /**
    * `+`: a string on either side makes both sides' text be joined; two numbers are added;
    * anything else is an error.
    */
  function Plus(left: Literal, right: Literal, line: nat, fmt: real -> string): Outcome {
    if left.LoxString? || right.LoxString? then Value(LoxString(left.Text(fmt) + right.Text(fmt)))
    else if left.LoxNumber? && right.LoxNumber? then Value(LoxNumber(left.number + right.number))
    else Thrown(RuntimeError(OperatorToken(Symbol.Plus, line), NotStringOrNumber))
  }

  /** A binary operator applied to two evaluated operands. */
  function BinaryOperator(op: BinaryOp, left: Literal, right: Literal, line: nat, fmt: real -> string): Outcome {
    if op == Symbol.Plus then Plus(left, right, line, fmt)
    else if op == DoubleEquals then Value(LoxBoolean(left == right))
    else if op == NotEqual then Value(LoxBoolean(left != right))
    else if left.LoxNumber? && right.LoxNumber? then NumberOperator(op, left.number, right.number, line)
    else Thrown(RuntimeError(OperatorToken(op, line), NotANumber))
  }

  /** A unary operator applied to its evaluated operand. */
  function UnaryOperator(op: UnaryOp, operand: Literal, line: nat): Outcome {
    if op == Not then Value(LoxBoolean(!IsTruthy(operand)))
    else if operand.LoxNumber? then Value(LoxNumber(-operand.number))
    else Thrown(RuntimeError(OperatorToken(op, line), NotANumber))
  }

  /**
    * `evaluate(expr)`. Operands are evaluated left to right before any check, and an error or
    * a `TODO()` in an operand ends the evaluation. `Variable` is a `TODO()`; the kinds this
    * evaluator has no branch for are treated the same way.
    */
  function Evaluate(e: Expression, fmt: real -> string): Outcome {
    match e
    case Literal(lit) => Value(lit)
    case Grouping(inner) => Evaluate(inner, fmt)
    case Unary(op, operand, line) =>
      (match Evaluate(operand, fmt)
       case Value(v) => UnaryOperator(op, v, line)
       case other => other)
    case Binary(left, op, right, line) =>
      (match Evaluate(left, fmt)
       case Value(l) =>
         (match Evaluate(right, fmt)
          case Value(r) => BinaryOperator(op, l, r, line, fmt)
          case other => other)
       case other => other)
    case _ => Unfinished
  }

  /** `stringify`: a string is shown in double quotes, anything else as its text. */
  function Stringify(lit: Literal, fmt: real -> string): string {
    if lit.LoxString? then "\"" + lit.value + "\"" else lit.Text(fmt)
  }

  /** What executing one statement gives: its result text and the lines it printed. */
  datatype Executed = Done(result: string, printed: seq<string>) | Failed(error: RuntimeError) | Stopped

  /**
    * `execute(statement)`: an expression statement's result is its value's text; a print
    * statement prints that text and has the empty result. `VarDeclaration` is a `TODO()`, and
    * so, in this model, is every statement kind `execute` has no branch for.
    */
  function Execute(st: Statement, fmt: real -> string): Executed {
    match st
    case ExpressionStatement(e, _) =>
      (match Evaluate(e, fmt)
       case Value(v) => Done(Stringify(v, fmt), [])
       case Thrown(error) => Failed(error)
       case Unfinished => Stopped)
    case Print(e, _) =>
      (match Evaluate(e, fmt)
       case Value(v) => Done("", [Stringify(v, fmt)])
       case Thrown(error) => Failed(error)
       case Unfinished => Stopped)
    case _ => Stopped
  }

  /** `InterpreterResult`. */
  datatype InterpreterResult = Success(data: Option<string>) | Error(token: Token, message: string)

  /** How `interpret` ends: it returns a result, or a `TODO()` escapes it. */
  datatype Ending = Returned(result: InterpreterResult) | Crashed

  /** A run of `interpret`: how it ended and the lines printed on the way. */
  datatype Run = Run(ending: Ending, printed: seq<string>)

  /** Why a run of statements ended: all completed, one threw, or one reached a `TODO()`. */
  datatype Stop = Completed | Raised(error: RuntimeError) | Halted

  /** The statements executed in order up to the first that does not complete. */
  datatype Batch = Batch(results: seq<string>, printed: seq<string>, stop: Stop)

  /** `statements.map(this::execute)`, with the exception that ends the mapping as `stop`. */
  function ExecuteAll(statements: seq<Statement>, fmt: real -> string): (b: Batch)
    ensures |b.results| <= |statements|
    ensures b.stop.Completed? ==> |b.results| == |statements|
  {
    if statements == [] then Batch([], [], Completed)
    else
      match Execute(statements[0], fmt)
      case Done(result, printed) =>
        var rest := ExecuteAll(statements[1..], fmt);
        Batch([result] + rest.results, printed + rest.printed, rest.stop)
      case Failed(error) => Batch([], [], Raised(error))
      case Stopped => Batch([], [], Halted)
  }

  /**
    * `interpret(statements)`: the result of the last statement (none for no statements), or
    * the first runtime error, which stops the statements after it.
    */
  function Interpret(statements: seq<Statement>, fmt: real -> string): Run {
    var b := ExecuteAll(statements, fmt);
    match b.stop
    case Completed => Run(Returned(Success(if b.results == [] then None else Some(b.results[|b.results| - 1]))), b.printed)
    case Raised(error) => Run(Returned(Error(error.token, error.message)), b.printed)
    case Halted => Run(Crashed, b.printed)
  }
}
