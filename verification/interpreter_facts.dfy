/**
  * What the evaluator of src/main/kotlin/Interpreter.kt guarantees, proved about the functions
  * of module Interpreting: truthiness and `!`, the operand checks, division by zero, the cases
  * of `+`, `==` against `!=`, left-to-right evaluation, that every tree the parser builds is
  * evaluated without reaching a `TODO()`, how `interpret` stops at the first error, and the
  * results of a few of the interpreter's tests.
  */
module EvaluationFacts {
  import opened Util
  import opened Tokens
  import opened Ast
  import opened Interpreting
  import Parsing

  /** `!` never raises an error of its own and yields `true` exactly for a falsy operand. */
  lemma NotYieldsBoolean(operand: Expression, line: nat, fmt: real -> string)
    ensures var r := Evaluate(Unary(Not, operand, line), fmt);
      && (r.Value? ==> r.lit == KwLit(True) || r.lit == KwLit(False))
      && (r.Value? <==> Evaluate(operand, fmt).Value?)
      && (r == Value(KwLit(True)) <==> Evaluate(operand, fmt).Value? && !IsTruthy(Evaluate(operand, fmt).lit))
  {
  }

  /** `!!x` is `true` exactly when `x` is truthy. */
  lemma DoubleNegation(operand: Expression, line: nat, fmt: real -> string)
    requires Evaluate(operand, fmt).Value?
    ensures Evaluate(Unary(Not, Unary(Not, operand, line), line), fmt) == Value(LoxBoolean(IsTruthy(Evaluate(operand, fmt).lit)))
  {
  }

  /**
    * The operators checked by `expectDouble` fail with "Operand must be a number", at the
    * operator, exactly when one of their operands is not a number.
    */
  lemma NumericOperandsChecked(op: BinaryOp, left: Literal, right: Literal, line: nat, fmt: real -> string)
    requires IsNumericOp(op)
    ensures BinaryOperator(op, left, right, line, fmt) == Thrown(RuntimeError(OperatorToken(op, line), NotANumber))
            <==> !(left.LoxNumber? && right.LoxNumber?)
    ensures left.LoxNumber? && right.LoxNumber? && op != Slash ==> BinaryOperator(op, left, right, line, fmt).Value?
  {
  }

  /** Unary `-` fails with "Operand must be a number" exactly when its operand is not a number. */
  lemma NegationChecked(operand: Literal, line: nat)
    ensures UnaryOperator(Minus, operand, line) == Thrown(RuntimeError(OperatorToken(Minus, line), NotANumber))
            <==> !operand.LoxNumber?
    ensures operand.LoxNumber? ==> UnaryOperator(Minus, operand, line) == Value(LoxNumber(-operand.number))
  {
  }

  /** `/` never yields a value for a zero divisor; two numbers with a zero divisor give "Division by zero". */
  lemma DivisionByZeroFails(left: Literal, right: Literal, line: nat, fmt: real -> string)
    ensures BinaryOperator(Slash, left, right, line, fmt).Value? ==>
              left.LoxNumber? && right.LoxNumber? && right.number != 0.0
              && BinaryOperator(Slash, left, right, line, fmt).lit == LoxNumber(left.number / right.number)
    ensures left.LoxNumber? && right == LoxNumber(0.0) ==>
              BinaryOperator(Slash, left, right, line, fmt) == Thrown(RuntimeError(OperatorToken(Slash, line), DivisionByZero))
  {
  }

  /**
    * `+` joins the texts of both operands when either is a string, adds two numbers, and
    * otherwise fails with "Operand must be a string or a number" at the operator.
    */
  lemma PlusCases(left: Literal, right: Literal, line: nat, fmt: real -> string)
    ensures var r := BinaryOperator(Symbol.Plus, left, right, line, fmt);
      && (r.Value? && r.lit.LoxString? <==> left.LoxString? || right.LoxString?)
      && (left.LoxString? || right.LoxString? ==> r.lit.value == left.Text(fmt) + right.Text(fmt))
      && (r.Value? && r.lit.LoxNumber? <==> left.LoxNumber? && right.LoxNumber?)
      && (left.LoxNumber? && right.LoxNumber? ==> r.lit.number == left.number + right.number)
      && (!r.Value? <==> r == Thrown(RuntimeError(OperatorToken(Symbol.Plus, line), NotStringOrNumber)))
  {
  }

  /**
    * `==` is structural equality with no conversion between kinds, and `!=` is its exact
    * negation: on any two expressions they yield opposite Booleans, or the same error.
    */
  lemma EqualityNegation(left: Expression, right: Expression, line: nat, fmt: real -> string)
    ensures var eq := Evaluate(Binary(left, DoubleEquals, right, line), fmt);
      var ne := Evaluate(Binary(left, NotEqual, right, line), fmt);
      && (eq.Value? <==> ne.Value?)
      && (Evaluate(left, fmt).Value? && Evaluate(right, fmt).Value? ==> eq.Value? && ne.Value?)
      && (eq.Value? ==> eq.lit in {KwLit(True), KwLit(False)} && (eq.lit == KwLit(True) <==> ne.lit == KwLit(False)))
      && (eq.Value? ==> (eq.lit == KwLit(True) <==> Evaluate(left, fmt).lit == Evaluate(right, fmt).lit))
      && (!eq.Value? ==> eq == ne)
  {
  }

  /**
    * Operands are evaluated left then right before any check: an error in the left operand is
    * the result whatever the right one holds, and one in the right operand comes before any
    * complaint about the left operand's kind.
    */
  lemma LeftOperandFirst(left: Expression, op: BinaryOp, right: Expression, line: nat, fmt: real -> string)
    ensures !Evaluate(left, fmt).Value? ==> Evaluate(Binary(left, op, right, line), fmt) == Evaluate(left, fmt)
    ensures Evaluate(left, fmt).Value? && !Evaluate(right, fmt).Value? ==>
              Evaluate(Binary(left, op, right, line), fmt) == Evaluate(right, fmt)
  {
  }

  /** The expression kinds `evaluate` has a finished branch for. */
  predicate Supported(e: Expression) {
    match e
    case Literal(_) => true
    case Grouping(inner) => Supported(inner)
    case Unary(_, operand, _) => Supported(operand)
    case Binary(left, _, right, _) => Supported(left) && Supported(right)
    case _ => false
  }

  /** A tree of supported kinds evaluates to a value or a runtime error, never to a `TODO()`. */
  lemma {:induction false} SupportedFinishes(e: Expression, fmt: real -> string)
    requires Supported(e)
    ensures !Evaluate(e, fmt).Unfinished?
  {
    match e
    case Literal(_) =>
    case Grouping(inner) => SupportedFinishes(inner, fmt);
    case Unary(_, operand, _) => SupportedFinishes(operand, fmt);
    case Binary(left, op, right, line) =>
      SupportedFinishes(left, fmt);
      SupportedFinishes(right, fmt);
      var l, r := Evaluate(left, fmt), Evaluate(right, fmt);
      if l.Value? && r.Value? {
        OperatorsFinish(op, l.lit, r.lit, line, fmt);
      }
  }

  lemma OperatorsFinish(op: BinaryOp, left: Literal, right: Literal, line: nat, fmt: real -> string)
    ensures !BinaryOperator(op, left, right, line, fmt).Unfinished?
  {
    if IsNumericOp(op) && left.LoxNumber? && right.LoxNumber? {
      assert !NumberOperator(op, left.number, right.number, line).Unfinished?;
    }
  }

  /** Every tree the parser's precedence levels build is of supported kinds. */
  lemma {:induction false} ParsedTreesSupported(e: Expression, level: nat)
    requires Parsing.AtLevel(e, level)
    ensures Supported(e)
  {
    match e
    case Literal(_) =>
    case Unary(_, operand, _) => ParsedTreesSupported(operand, 0);
    case Binary(left, op, right, _) =>
      ParsedTreesSupported(left, Parsing.Precedence(op));
      ParsedTreesSupported(right, Parsing.Precedence(op) - 1);
  }

  /** A statement's own result: the value's text, and for `print` the empty text with that text printed. */
  lemma StatementResults(st: Statement, fmt: real -> string)
    requires st.ExpressionStatement? || st.Print?
    ensures Execute(st, fmt).Done? <==> Evaluate(st.expression, fmt).Value?
    ensures Execute(st, fmt).Failed? <==> Evaluate(st.expression, fmt).Thrown?
    ensures Execute(st, fmt).Done? ==>
      var text := Stringify(Evaluate(st.expression, fmt).lit, fmt);
      Execute(st, fmt) == if st.Print? then Done("", [text]) else Done(text, [])
  {
  }

  /** A string is shown between double quotes; anything else exactly as its text. */
  lemma StringifyQuotes(lit: Literal, fmt: real -> string)
    ensures lit.LoxString? ==>
              (&& |Stringify(lit, fmt)| == |lit.value| + 2
               && Stringify(lit, fmt)[0] == '"' && Stringify(lit, fmt)[|Stringify(lit, fmt)| - 1] == '"'
               && Stringify(lit, fmt)[1..|Stringify(lit, fmt)| - 1] == lit.value)
    ensures !lit.LoxString? ==> Stringify(lit, fmt) == lit.Text(fmt)
  {
  }

  /** The index of the first statement that does not complete, or the count of statements. */
  function FirstIncomplete(statements: seq<Statement>, fmt: real -> string): (k: nat)
    ensures k <= |statements|
    ensures forall j | 0 <= j < k :: Execute(statements[j], fmt).Done?
    ensures k < |statements| ==> !Execute(statements[k], fmt).Done?
  {
    if statements == [] || !Execute(statements[0], fmt).Done? then 0
    else 1 + FirstIncomplete(statements[1..], fmt)
  }

  /** The lines printed by statements that all complete, in order. */
  function PrintedBy(statements: seq<Statement>, fmt: real -> string): seq<string>
    requires forall j | 0 <= j < |statements| :: Execute(statements[j], fmt).Done?
  {
    if statements == [] then [] else Execute(statements[0], fmt).printed + PrintedBy(statements[1..], fmt)
  }

  /**
    * `interpret` runs the statements up to the first that does not complete: when all
    * complete it returns the last one's result (none for no statements); when one throws, it
    * returns that error and nothing after it runs; when one reaches a `TODO()`, that escapes.
    * Either way exactly the lines of the statements before the stop are printed.
    */
  lemma {:induction false} InterpretStopsAtFirstIncomplete(statements: seq<Statement>, fmt: real -> string)
    ensures var k := FirstIncomplete(statements, fmt);
      var printed := PrintedBy(statements[..k], fmt);
      Interpret(statements, fmt) ==
        if k == |statements| then
          Run(Returned(Success(if k == 0 then None else Some(Execute(statements[k - 1], fmt).result))), printed)
        else match Execute(statements[k], fmt)
          case Failed(error) => Run(Returned(Error(error.token, error.message)), printed)
          case _ => Run(Crashed, printed)
  {
    ExecuteAllStops(statements, fmt);
  }

  lemma {:induction false} ExecuteAllStops(statements: seq<Statement>, fmt: real -> string)
    ensures var k := FirstIncomplete(statements, fmt);
      var b := ExecuteAll(statements, fmt);
      && |b.results| == k
      && (forall j | 0 <= j < k :: b.results[j] == Execute(statements[j], fmt).result)
      && b.printed == PrintedBy(statements[..k], fmt)
      && b.stop == (if k == |statements| then Completed
                    else match Execute(statements[k], fmt)
                      case Failed(error) => Raised(error)
                      case _ => Halted)
  {
    if statements != [] && Execute(statements[0], fmt).Done? {
      var rest := statements[1..];
      ExecuteAllStops(rest, fmt);
      var k := FirstIncomplete(statements, fmt);
      assert statements[..k][1..] == rest[..k - 1];
      forall j | 0 <= j < k
        ensures ExecuteAll(statements, fmt).results[j] == Execute(statements[j], fmt).result
      {
        if j > 0 {
          assert statements[j] == rest[j - 1];
        }
      }
    }
  }

  /** `1 / (1 - 1)` fails with "Division by zero" at the `/` on line 1. */
  lemma DivisionByZeroExample(fmt: real -> string)
    ensures var one := Literal(LoxNumber(1.0));
      Evaluate(Binary(one, Slash, Grouping(Binary(one, Minus, one, 1)), 1), fmt)
        == Thrown(RuntimeError(Token(Sym(Slash), "/", 1), DivisionByZero))
  {
  }

  /** `!!nil` is `false`. */
  lemma DoubleNegationOfNil(fmt: real -> string)
    ensures Evaluate(Unary(Not, Unary(Not, Literal(KwLit(Nil)), 1), 1), fmt) == Value(KwLit(False))
  {
  }

  /**
    * `1 + 2 * 3 == 7` is `true`: `*` binds tighter than `+` in the tree the precedence levels
    * describe (the parser as written stops after the first `1`, see `LiteralStopsTheParse`).
    */
  lemma ArithmeticExample(fmt: real -> string)
    ensures var sum := Binary(Literal(LoxNumber(1.0)), Symbol.Plus,
                              Binary(Literal(LoxNumber(2.0)), Asterisk, Literal(LoxNumber(3.0)), 1), 1);
      Evaluate(Binary(sum, DoubleEquals, Literal(LoxNumber(7.0)), 1), fmt) == Value(KwLit(True))
  {
  }
}
