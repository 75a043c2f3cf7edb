/**
  * The static pass of src/main/kotlin/Resolver.kt as functions over a resolver state: the stack
  * of scope frames, the error list, the calls made to the interpreter's `resolve(expr, depth,
  * index)` (kept as a log, since the interpreter's side is outside this model) and the kind of
  * code being resolved. The class in module Resolving is proved to compute exactly these
  * functions.
  */
module Resolution {
  import opened Util
  import opened Tokens
  import opened Ast

  /** `VariableResolution`: whether the name is initialised and read, its slot and its declaration line. */
  datatype VariableResolution = VariableResolution(initialised: bool, read: bool, index: nat, line: nat)

  /**
    * One scope: a map that remembers insertion order, as Kotlin's `mutableMapOf()` does.
    * `order` lists the keys in the order they were first inserted.
    */
  datatype Frame = Frame(order: seq<string>, entries: map<string, VariableResolution>)
  {
    /** The keys are exactly the names in `order`, each listed once. */
    ghost predicate Valid() {
      && (forall k :: k in entries <==> k in order)
      && (forall a, b | 0 <= a < b < |order| :: order[a] != order[b])
    }

    /** `scope.size`. */
    function Size(): nat {
      |order|
    }

    /** `scope[name] = value`: a new key goes last, an existing key keeps its place. */
    function Put(name: string, value: VariableResolution): (f: Frame)
      ensures f.entries == entries[name := value]
      ensures f.order == if name in entries then order else order + [name]
      ensures Valid() ==> f.Valid()
    {
      if name in entries then Frame(order, entries[name := value]) else Frame(order + [name], entries[name := value])
    }
  }

  const EmptyFrame := Frame([], map[])

  /** `FunctionType`: `InsideFunction` stands for `Function`, `TopLevel` for `None`. */
  datatype FunctionType = InsideFunction | TopLevel

  datatype ResolveError = ResolveError(line: nat, lexeme: string, message: string)

  /** An error as `recordError` formats it. */
  function Render(e: ResolveError): string {
    "[line " + NatToString(e.line) + "] Error at " + e.lexeme + ": " + e.message
  }

  /**
    * The printed error can be read back: after `[line ` comes a run of digits whose value is
    * the error's line, closed by `]`, then the lexeme and the message.
    */
  lemma RenderReadsBack(e: ResolveError)
    ensures var r := Render(e); var k := |NatToString(e.line)|;
      && |r| >= 6 + k && r[..6] == "[line "
      && AllDigits(r[6..6 + k]) && DigitsValue(r[6..6 + k]) == e.line
      && r[6 + k..] == "] Error at " + e.lexeme + ": " + e.message
  {
    var d := NatToString(e.line);
    var r := Render(e);
    assert r == "[line " + (d + ("] Error at " + e.lexeme + ": " + e.message));
    assert r[6..6 + |d|] == d;
    NatToStringRoundTrip(e.line);
  }

  /** One call of the interpreter's `resolve`: the name resolved, its scope distance and its slot. */
  datatype ResolvedLocal = ResolvedLocal(name: Token, depth: nat, slot: nat)

  datatype State = State(scopes: seq<Frame>, errors: seq<ResolveError>, resolutions: seq<ResolvedLocal>,
                         currentFunction: FunctionType)

  /** A fresh resolver: one (global) frame, no errors, at top level. */
  const Initial := State([EmptyFrame], [], [], TopLevel)

  /**
    * A name token's text, `name.type.asString`. Names are identifiers (or keywords); a number
    * kind, which never names anything, is shown by its lexeme.
    */
  function NameOf(t: Token): string {
    t.kind.Text(_ => t.lexeme)
  }

  const AlreadyDeclared := "Already a variable with this name in this scope."
  const Undeclared := "Assigning to undeclared variable."
  const OwnInitialiser := "Can't read local variable in its own initialiser."
  const TopLevelReturn := "Can't return from top-level code."
  const NeverUsed := "Variable is never used."

  function RecordError(s: State, line: nat, lexeme: string, message: string): (r: State)
    ensures r.errors == s.errors + [ResolveError(line, lexeme, message)]
    ensures r.scopes == s.scopes && r.resolutions == s.resolutions && r.currentFunction == s.currentFunction
  {
    s.(errors := s.errors + [ResolveError(line, lexeme, message)])
  }

  function Top(s: State): Frame
    requires |s.scopes| > 0
  {
    s.scopes[|s.scopes| - 1]
  }

  function SetTop(s: State, f: Frame): State
    requires |s.scopes| > 0
  {
    s.(scopes := s.scopes[..|s.scopes| - 1] + [f])
  }

  /**
    * `declare(name, line)`: with no frame nothing happens; otherwise an existing name in the
    * innermost frame is reported, and the name is (re)entered as declared, unread, with the
    * frame's size before the insertion as its slot.
    */
  function Declare(s: State, name: string, line: nat): (r: State)
    ensures |r.scopes| == |s.scopes| && r.currentFunction == s.currentFunction && r.resolutions == s.resolutions
    ensures |s.scopes| == 0 ==> r == s
    ensures |s.scopes| > 0 ==>
      && r.scopes[..|s.scopes| - 1] == s.scopes[..|s.scopes| - 1]
      && Top(r) == Top(s).Put(name, VariableResolution(false, false, Top(s).Size(), line))
      && r.errors == s.errors + (if name in Top(s).entries then [ResolveError(line, name, AlreadyDeclared)] else [])
  {
    if |s.scopes| == 0 then s
    else
      var scope := Top(s);
      var s1 := if name in scope.entries then RecordError(s, line, name, AlreadyDeclared) else s;
      SetTop(s1, scope.Put(name, VariableResolution(false, false, scope.Size(), line)))
  }

  /**
    * `define(name, line)`: a declared name in the innermost frame becomes initialised and keeps
    * everything else; an absent one is reported and entered as initialised with the next slot.
    */
  function Define(s: State, name: string, line: nat): (r: State)
    ensures |r.scopes| == |s.scopes| && r.currentFunction == s.currentFunction && r.resolutions == s.resolutions
    ensures |s.scopes| == 0 ==> r == s
    ensures |s.scopes| > 0 ==>
      && r.scopes[..|s.scopes| - 1] == s.scopes[..|s.scopes| - 1]
      && name in Top(r).entries && Top(r).entries[name].initialised
      && (name in Top(s).entries ==>
            && Top(r) == Top(s).Put(name, Top(s).entries[name].(initialised := true))
            && r.errors == s.errors)
      && (name !in Top(s).entries ==>
            && Top(r) == Top(s).Put(name, VariableResolution(true, false, Top(s).Size(), line))
            && r.errors == s.errors + [ResolveError(line, name, Undeclared)])
  {
    if |s.scopes| == 0 then s
    else
      var scope := Top(s);
      if name !in scope.entries then
        SetTop(RecordError(s, line, name, Undeclared), scope.Put(name, VariableResolution(true, false, scope.Size(), line)))
      else
        SetTop(s, scope.Put(name, scope.entries[name].(initialised := true)))
  }

  function BeginScope(s: State): (r: State)
    ensures r.scopes == s.scopes + [EmptyFrame]
    ensures r.errors == s.errors && r.resolutions == s.resolutions && r.currentFunction == s.currentFunction
  {
    s.(scopes := s.scopes + [EmptyFrame])
  }

  /** The "never used" errors for the first `n` names of a frame, in insertion order. */
  function UnusedErrors(f: Frame, n: nat): seq<ResolveError>
    requires n <= |f.order|
  {
    if n == 0 then []
    else
      var key := f.order[n - 1];
      UnusedErrors(f, n - 1) +
        (if key in f.entries && !f.entries[key].read then [ResolveError(f.entries[key].line, key, NeverUsed)] else [])
  }

  /** `endScope()`: pop the innermost frame and report each of its names never read. */
  function EndScope(s: State): (r: State)
    requires |s.scopes| > 0
    ensures r.scopes == s.scopes[..|s.scopes| - 1]
    ensures r.errors == s.errors + UnusedErrors(Top(s), |Top(s).order|)
    ensures r.resolutions == s.resolutions && r.currentFunction == s.currentFunction
  {
    var scope := Top(s);
    s.(scopes := s.scopes[..|s.scopes| - 1], errors := s.errors + UnusedErrors(scope, |scope.order|))
  }

  /** The index of the innermost frame holding `name`. */
  function Innermost(scopes: seq<Frame>, name: string): (r: Option<nat>)
    ensures r.Some? ==> r.value < |scopes| && name in scopes[r.value].entries
    ensures r.Some? ==> forall j | r.value < j < |scopes| :: name !in scopes[j].entries
    ensures r.None? ==> forall j | 0 <= j < |scopes| :: name !in scopes[j].entries
  {
    if |scopes| == 0 then None
    else if name in scopes[|scopes| - 1].entries then Some(|scopes| - 1)
    else Innermost(scopes[..|scopes| - 1], name)
  }

  /**
    * `resolveLocal(expr, name)`: the innermost frame holding the name has its entry marked as
    * read, and the interpreter is told the distance from the innermost frame and the slot.
    * A name found nowhere changes nothing.
    */
  function ResolveLocal(s: State, name: Token): (r: State)
    ensures r.errors == s.errors && r.currentFunction == s.currentFunction && |r.scopes| == |s.scopes|
    ensures |s.resolutions| <= |r.resolutions| <= |s.resolutions| + 1 && r.resolutions[..|s.resolutions|] == s.resolutions
    ensures |r.resolutions| > |s.resolutions| <==> exists j | 0 <= j < |s.scopes| :: NameOf(name) in s.scopes[j].entries
    ensures |r.resolutions| == |s.resolutions| ==> r == s
    ensures |r.resolutions| > |s.resolutions| ==>
      var call := r.resolutions[|s.resolutions|];
      var i := |s.scopes| - 1 - call.depth;
      && call.name == name && call.depth < |s.scopes|
      && NameOf(name) in s.scopes[i].entries && call.slot == s.scopes[i].entries[NameOf(name)].index
      && (forall j | i < j < |s.scopes| :: NameOf(name) !in s.scopes[j].entries)
      && r.scopes == s.scopes[i := s.scopes[i].Put(NameOf(name), s.scopes[i].entries[NameOf(name)].(read := true))]
  {
    var key := NameOf(name);
    match Innermost(s.scopes, key)
    case None => s
    case Some(i) =>
      var entry := s.scopes[i].entries[key];
      s.(scopes := s.scopes[i := s.scopes[i].Put(key, entry.(read := true))],
         resolutions := s.resolutions + [ResolvedLocal(name, |s.scopes| - 1 - i, entry.index)])
  }

  /** Whether the innermost frame has `name` declared but not yet initialised. */
  predicate InOwnInitialiser(s: State, name: string) {
    |s.scopes| > 0 && name in Top(s).entries && !Top(s).entries[name].initialised
  }

  /** `resolve(expr)`. `Get` and `Set` have no branch and change nothing. */
  function ResolveExpr(s: State, e: Expression): (r: State)
    ensures |r.scopes| == |s.scopes| && r.currentFunction == s.currentFunction
    decreases e, 0
  {
    match e
    case And(left, right) => ResolveExpr(ResolveExpr(s, left), right)
    case Or(left, right) => ResolveExpr(ResolveExpr(s, left), right)
    case Binary(left, _, right, _) => ResolveExpr(ResolveExpr(s, left), right)
    case Assignment(assignee, value) => ResolveLocal(ResolveExpr(s, value), assignee)
    case Call(callee, arguments, _) => ResolveExprs(ResolveExpr(s, callee), arguments)
    case Function(parameters, body) => ResolveFunction(s, parameters, body)
    case Grouping(inner) => ResolveExpr(s, inner)
    case Literal(_) => s
    case Unary(_, operand, _) => ResolveExpr(s, operand)
    case Variable(name) =>
      var s1 := if InOwnInitialiser(s, NameOf(name)) then RecordError(s, name.line, NameOf(name), OwnInitialiser) else s;
      ResolveLocal(s1, name)
    case Get(_, _) => s
    case Set(_, _, _) => s
  }

  /** `arguments.forEach(::resolve)`, first argument first. */
  function ResolveExprs(s: State, es: seq<Expression>): (r: State)
    ensures |r.scopes| == |s.scopes| && r.currentFunction == s.currentFunction
    decreases es, 0
  {
    if es == [] then s else ResolveExpr(ResolveExprs(s, es[..|es| - 1]), es[|es| - 1])
  }

  /** Each parameter is declared and then defined, first parameter first. */
  function DeclareParameters(s: State, parameters: seq<Token>): (r: State)
    ensures |r.scopes| == |s.scopes| && r.currentFunction == s.currentFunction && r.resolutions == s.resolutions
  {
    if parameters == [] then s
    else
      var p := parameters[|parameters| - 1];
      var s1 := DeclareParameters(s, parameters[..|parameters| - 1]);
      Define(Declare(s1, NameOf(p), p.line), NameOf(p), p.line)
  }

  /**
    * `resolveFunction(parameters, body)`: the parameters get a frame of their own, the body's
    * locals another, and the enclosing function kind is restored afterwards.
    */
  function ResolveFunction(s: State, parameters: seq<Token>, body: seq<Statement>): (r: State)
    ensures |r.scopes| == |s.scopes| && r.currentFunction == s.currentFunction
    decreases body, 1
  {
    var s1 := DeclareParameters(BeginScope(s.(currentFunction := InsideFunction)), parameters);
    var s2 := ResolveStmts(BeginScope(s1), body);
    EndScope(EndScope(s2)).(currentFunction := s.currentFunction)
  }

  /** `resolve(statement)`. `ClassDeclaration` has no branch and changes nothing. */
  function ResolveStmt(s: State, st: Statement): (r: State)
    ensures |r.scopes| == |s.scopes| && r.currentFunction == s.currentFunction
    decreases st, 0
  {
    match st
    case Block(statements, _) => EndScope(ResolveStmts(BeginScope(s), statements))
    case Break(_) => s
    case ExpressionStatement(e, _) => ResolveExpr(s, e)
    case Function(name, parameters, body) =>
      var s1 := Define(Declare(s, NameOf(name), st.Line()), NameOf(name), st.Line());
      ResolveFunction(s1, parameters, body)
    case If(condition, thenBranch, elseBranch, _) =>
      var s1 := ResolveStmt(ResolveExpr(s, condition), thenBranch);
      if elseBranch.Some? then ResolveStmt(s1, elseBranch.value) else s1
    case Print(e, _) => ResolveExpr(s, e)
    case Return(value, line) =>
      var s1 := if s.currentFunction == TopLevel then RecordError(s, line, "return", TopLevelReturn) else s;
      if value.Some? then ResolveExpr(s1, value.value) else s1
    case VarDeclaration(name, initialiser, line) =>
      var s1 := Declare(s, name, line);
      var s2 := if initialiser.Some? then ResolveExpr(s1, initialiser.value) else s1;
      Define(s2, name, line)
    case While(condition, loopBody, _) => ResolveStmt(ResolveExpr(s, condition), loopBody)
    case ClassDeclaration(_, _) => s
  }

  /** `statements.forEach(::resolve)`, first statement first. */
  function ResolveStmts(s: State, ss: seq<Statement>): (r: State)
    ensures |r.scopes| == |s.scopes| && r.currentFunction == s.currentFunction
    decreases ss, 0
  {
    if ss == [] then s else ResolveStmt(ResolveStmts(s, ss[..|ss| - 1]), ss[|ss| - 1])
  }

  /** `Resolver(interpreter).resolve(statements)` on a fresh resolver: the errors it returns. */
  function ResolveProgram(statements: seq<Statement>): seq<ResolveError> {
    ResolveStmts(Initial, statements).errors
  }
}
