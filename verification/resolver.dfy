/**
  * The resolver object of src/main/kotlin/Resolver.kt: an error list, a stack of scope frames
  * updated in place, the kind of code being resolved, and the calls it makes to the interpreter.
  * Every method is proved to move the object's state exactly as the functions of module
  * Resolution say, so the properties proved there hold for the object.
  */
module Resolving {
  import opened Util
  import opened Tokens
  import opened Ast
  import opened Resolution

  class Resolver {
    var errors: seq<ResolveError>
    var scopes: seq<Frame>
    var currentFunction: FunctionType
    /** The calls made to the interpreter's `resolve(expr, depth, index)`, oldest first. */
    var resolutions: seq<ResolvedLocal>

    function AsState(): State
      reads this
    {
      State(scopes, errors, resolutions, currentFunction)
    }

    /** A new resolver holds the global frame and no errors, at top level. */
    constructor ()
      ensures AsState() == Initial
    {
      errors := [];
      scopes := [EmptyFrame];
      currentFunction := TopLevel;
      resolutions := [];
    }

    method RecordError(line: nat, lexeme: string, message: string)
      modifies this
      ensures AsState() == Resolution.RecordError(old(AsState()), line, lexeme, message)
    {
      errors := errors + [ResolveError(line, lexeme, message)];
    }

    /** `resolve(statements)`: every statement in order; the result is every error so far. */
    method Resolve(statements: seq<Statement>) returns (result: seq<ResolveError>)
      modifies this
      ensures AsState() == ResolveStmts(old(AsState()), statements)
      ensures result == errors
      decreases statements, 2
    {
      for i := 0 to |statements|
        invariant AsState() == ResolveStmts(old(AsState()), statements[..i])
      {
        assert statements[..i + 1][..i] == statements[..i];
        ResolveStatement(statements[i]);
      }
      assert statements[..|statements|] == statements;
      return errors;
    }

    method ResolveStatement(statement: Statement)
      modifies this
      ensures AsState() == ResolveStmt(old(AsState()), statement)
      decreases statement, 1
    {
      match statement
      case Block(statements, _) =>
        BeginScope();
        var _ := Resolve(statements);
        EndScope();
      case Function(name, parameters, body) =>
        Declare(NameOf(name), statement.Line());
        Define(NameOf(name), statement.Line());
        ResolveFunction(parameters, body);
      case If(condition, thenBranch, elseBranch, _) =>
        ResolveExpression(condition);
        ResolveStatement(thenBranch);
        if elseBranch.Some? {
          ResolveStatement(elseBranch.value);
        }
      case _ =>
        ResolveSimpleStatement(statement);
    }

    /** The statement kinds that resolve at most one expression and one nested statement. */
    method ResolveSimpleStatement(statement: Statement)
      requires !(statement.Block? || statement.Function? || statement.If?)
      modifies this
      ensures AsState() == ResolveStmt(old(AsState()), statement)
      decreases statement, 0
    {
      match statement
      case Break(_) =>
      case ExpressionStatement(e, _) =>
        ResolveExpression(e);
      case Print(e, _) =>
        ResolveExpression(e);
      case Return(value, line) =>
        if currentFunction == TopLevel {
          RecordError(line, "return", TopLevelReturn);
        }
        if value.Some? {
          ResolveExpression(value.value);
        }
      case VarDeclaration(name, initialiser, line) =>
        Declare(name, line);
        if initialiser.Some? {
          ResolveExpression(initialiser.value);
        }
        Define(name, line);
      case While(condition, loopBody, _) =>
        ResolveExpression(condition);
        ResolveStatement(loopBody);
      case ClassDeclaration(_, _) =>
    }

    method ResolveExpression(e: Expression)
      modifies this
      ensures AsState() == ResolveExpr(old(AsState()), e)
      decreases e, 5
    {
      match e
      case And(left, right) =>
        ResolveExpression(left);
        ResolveExpression(right);
      case Or(left, right) =>
        ResolveExpression(left);
        ResolveExpression(right);
      case Binary(left, _, right, _) =>
        ResolveExpression(left);
        ResolveExpression(right);
      case Assignment(assignee, value) =>
        ResolveExpression(value);
        ResolveLocal(assignee);
      case Call(callee, arguments, _) =>
        ResolveExpression(callee);
        ResolveArguments(arguments);
      case Function(parameters, body) =>
        ResolveFunction(parameters, body);
      case _ =>
        ResolveSingle(e);
    }

    /** The expression kinds with at most one part to resolve. */
    method ResolveSingle(e: Expression)
      requires e.Grouping? || e.Literal? || e.Unary? || e.Variable? || e.Get? || e.Set?
      modifies this
      ensures AsState() == ResolveExpr(old(AsState()), e)
      decreases e, 4
    {
      match e
      case Grouping(inner) =>
        ResolveExpression(inner);
      case Literal(_) =>
      case Unary(_, operand, _) =>
        ResolveExpression(operand);
      case Variable(name) =>
        ResolveVariable(name);
      case Get(_, _) =>
      case Set(_, _, _) =>
    }

    /** `expr.arguments.forEach(::resolve)`. */
    method ResolveArguments(arguments: seq<Expression>)
      modifies this
      ensures AsState() == ResolveExprs(old(AsState()), arguments)
      decreases arguments, 4
    {
      for i := 0 to |arguments|
        invariant AsState() == ResolveExprs(old(AsState()), arguments[..i])
      {
        assert arguments[..i + 1][..i] == arguments[..i];
        ResolveExpression(arguments[i]);
      }
      assert arguments[..|arguments|] == arguments;
    }

    /** A variable read: reported when it is in its own initialiser, then resolved. */
    method ResolveVariable(name: Token)
      modifies this
      ensures AsState() == ResolveExpr(old(AsState()), Variable(name))
    {
      var key := NameOf(name);
      if |scopes| > 0 && key in scopes[|scopes| - 1].entries && !scopes[|scopes| - 1].entries[key].initialised {
        RecordError(name.line, key, OwnInitialiser);
      }
      ResolveLocal(name);
    }

    method ResolveFunction(parameters: seq<Token>, body: seq<Statement>)
      modifies this
      ensures AsState() == Resolution.ResolveFunction(old(AsState()), parameters, body)
      decreases body, 3
    {
      var enclosing := currentFunction;
      currentFunction := InsideFunction;
      BeginScope();
      ghost var withFrame := AsState();
      for i := 0 to |parameters|
        invariant AsState() == DeclareParameters(withFrame, parameters[..i])
      {
        assert parameters[..i + 1][..i] == parameters[..i];
        Declare(NameOf(parameters[i]), parameters[i].line);
        Define(NameOf(parameters[i]), parameters[i].line);
      }
      assert parameters[..|parameters|] == parameters;
      BeginScope();
      var _ := Resolve(body);
      EndScope();
      EndScope();
      currentFunction := enclosing;
    }

    /** `resolveLocal(expr, name)`: frames are searched from the innermost outwards. */
    method ResolveLocal(name: Token)
      modifies this
      ensures AsState() == Resolution.ResolveLocal(old(AsState()), name)
    {
      var key := NameOf(name);
      var index := |scopes|;
      while index > 0
        invariant 0 <= index <= |scopes|
        invariant forall j | index <= j < |scopes| :: key !in scopes[j].entries
        invariant AsState() == old(AsState())
      {
        index := index - 1;
        if key in scopes[index].entries {
          var state := scopes[index].entries[key];
          scopes := scopes[index := scopes[index].Put(key, state.(read := true))];
          resolutions := resolutions + [ResolvedLocal(name, |scopes| - 1 - index, state.index)];
          return;
        }
      }
    }

    method Declare(name: string, line: nat)
      modifies this
      ensures AsState() == Resolution.Declare(old(AsState()), name, line)
    {
      if |scopes| > 0 {
        var scope := scopes[|scopes| - 1];
        if name in scope.entries {
          RecordError(line, name, AlreadyDeclared);
        }
        scopes := scopes[..|scopes| - 1] + [scope.Put(name, VariableResolution(false, false, scope.Size(), line))];
      }
    }

    method Define(name: string, line: nat)
      modifies this
      ensures AsState() == Resolution.Define(old(AsState()), name, line)
    {
      if |scopes| > 0 {
        var scope := scopes[|scopes| - 1];
        if name !in scope.entries {
          RecordError(line, name, Undeclared);
          scopes := scopes[..|scopes| - 1] + [scope.Put(name, VariableResolution(true, false, scope.Size(), line))];
        } else {
          scopes := scopes[..|scopes| - 1] + [scope.Put(name, scope.entries[name].(initialised := true))];
        }
      }
    }

    method BeginScope()
      modifies this
      ensures AsState() == Resolution.BeginScope(old(AsState()))
    {
      scopes := scopes + [EmptyFrame];
    }

    /** `endScope()`: pops the innermost frame and reports its unread names in insertion order. */
    method EndScope()
      requires |scopes| > 0
      modifies this
      ensures AsState() == Resolution.EndScope(old(AsState()))
    {
      var scope := scopes[|scopes| - 1];
      scopes := scopes[..|scopes| - 1];
      for k := 0 to |scope.order|
        invariant errors == old(errors) + UnusedErrors(scope, k)
        invariant scopes == old(scopes)[..|old(scopes)| - 1]
        invariant resolutions == old(resolutions) && currentFunction == old(currentFunction)
      {
        var key := scope.order[k];
        if key in scope.entries && !scope.entries[key].read {
          RecordError(scope.entries[key].line, key, NeverUsed);
        }
      }
    }
  }
}
