/**
  * Expression and statement trees (src/main/kotlin/Expression.kt). Trees are immutable values
  * built by the parser and walked by the resolver and the evaluator.
  *
  * `Binary` and `Unary` also carry the line of their operator, which the evaluator reports
  * in its runtime errors. A function's body is held as the statement list of its block.
  */
module Ast {
  import opened Util
  import opened Tokens

  datatype Expression =
    | Binary(left: Expression, op: BinaryOp, right: Expression, line: nat)
    | Grouping(expression: Expression)
    | Unary(prefix: UnaryOp, operand: Expression, line: nat)
    | Literal(lit: Tokens.Literal)
    | Variable(name: Token)
    | Assignment(assignee: Token, value: Expression)
    | And(left: Expression, right: Expression)
    | Or(left: Expression, right: Expression)
    | Call(callee: Expression, arguments: seq<Expression>, sourceLine: nat)
    | Function(parameters: seq<Token>, body: seq<Statement>)
    | Get(obj: Expression, name: Token)
    | Set(obj: Expression, name: Token, value: Expression)

  datatype Statement =
    | ExpressionStatement(expression: Expression, sourceLine: nat)
    | Print(expression: Expression, sourceLine: nat)
    | VarDeclaration(varName: string, initialiser: Option<Expression>, sourceLine: nat)
    | Block(statements: seq<Statement>, sourceLine: nat)
    | If(condition: Expression, thenBranch: Statement, elseBranch: Option<Statement>, sourceLine: nat)
    | While(condition: Expression, loopBody: Statement, sourceLine: nat)
    | Break(sourceLine: nat)
    | Function(functionName: Token, parameters: seq<Token>, body: seq<Statement>)
    | Return(value: Option<Expression>, sourceLine: nat)
    | ClassDeclaration(className: Token, methods: seq<Statement>)
  {
    /** The line a statement reports; declarations take the line of their name. */
    function Line(): nat {
      match this
      case Function(name, _, _) => name.line
      case ClassDeclaration(name, _) => name.line
      case _ => this.sourceLine
    }
  }
}
