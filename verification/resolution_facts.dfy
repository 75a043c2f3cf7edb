/**
  * What the resolver of src/main/kotlin/Resolver.kt guarantees, proved about the functions of
  * module Resolution (and so, through the class of module Resolving, about the object):
  * resolving never forgets an error, a resolution or a name of an enclosing frame; frames stay
  * well formed; parameters take slots 0, 1, 2, ... in order; a fresh local takes the next slot;
  * a function's own name is visible in its body; the "never used" report names each unread
  * name once; and the errors of the resolver's tests.
  */
module ResolutionFacts {
  import opened Util
  import opened Tokens
  import opened Ast
  import opened Resolution

  /** The names of some tokens, in order. */
  function Names(ts: seq<Token>): (ns: seq<string>)
    ensures |ns| == |ts| && forall i | 0 <= i < |ts| :: ns[i] == NameOf(ts[i])
  {
    if ts == [] then [] else Names(ts[..|ts| - 1]) + [NameOf(ts[|ts| - 1])]
  }

  predicate Distinct(ns: seq<string>) {
    forall a, b | 0 <= a < b < |ns| :: ns[a] != ns[b]
  }

  /** Every frame lists each of its names once, in insertion order. */
  ghost predicate WellFormed(s: State) {
    forall i | 0 <= i < |s.scopes| :: s.scopes[i].Valid()
  }

  /** `g` is `f` after some of its names were read: same names, order, slots, lines and initialisation. */
  ghost predicate Kept(f: Frame, g: Frame) {
    && f.order == g.order
    && f.entries.Keys == g.entries.Keys
    && forall k | k in f.entries ::
         && g.entries[k].initialised == f.entries[k].initialised
         && g.entries[k].index == f.entries[k].index
         && g.entries[k].line == f.entries[k].line
         && (f.entries[k].read ==> g.entries[k].read)
  }

  /** `r` follows `s`: no error or resolution is lost and the outermost `n` frames are kept. */
  ghost predicate Extends(s: State, r: State, n: nat) {
    && s.errors <= r.errors
    && s.resolutions <= r.resolutions
    && n <= |s.scopes| && n <= |r.scopes|
    && forall i | 0 <= i < n :: Kept(s.scopes[i], r.scopes[i])
  }

  /** The frames a statement may not alter: all but the innermost, where it declares names. */
  function Below(s: State): nat {
    if |s.scopes| == 0 then 0 else |s.scopes| - 1
  }

  lemma ExtendsTransitive(a: State, b: State, c: State, n: nat)
    requires Extends(a, b, n) && Extends(b, c, n)
    ensures Extends(a, c, n)
  {
    forall i | 0 <= i < n
      ensures Kept(a.scopes[i], c.scopes[i])
    {
      assert Kept(a.scopes[i], b.scopes[i]) && Kept(b.scopes[i], c.scopes[i]);
    }
  }

  lemma ExtendsFewer(s: State, r: State, n: nat, m: nat)
    requires Extends(s, r, n) && m <= n
    ensures Extends(s, r, m)
  {
  }

  lemma DeclareExtends(s: State, name: string, line: nat)
    ensures Extends(s, Declare(s, name, line), Below(s))
    ensures WellFormed(s) ==> WellFormed(Declare(s, name, line))
  {
    var r := Declare(s, name, line);
    if |s.scopes| > 0 {
      forall i | 0 <= i < Below(s)
        ensures Kept(s.scopes[i], r.scopes[i])
      {
        assert r.scopes[i] == r.scopes[..|s.scopes| - 1][i];
      }
      if WellFormed(s) {
        forall i | 0 <= i < |r.scopes|
          ensures r.scopes[i].Valid()
        {
          if i < |s.scopes| - 1 {
            assert r.scopes[i] == r.scopes[..|s.scopes| - 1][i] == s.scopes[i];
          }
        }
      }
    }
  }

  lemma DefineExtends(s: State, name: string, line: nat)
    ensures Extends(s, Define(s, name, line), Below(s))
    ensures WellFormed(s) ==> WellFormed(Define(s, name, line))
  {
    var r := Define(s, name, line);
    if |s.scopes| > 0 {
      forall i | 0 <= i < Below(s)
        ensures Kept(s.scopes[i], r.scopes[i])
      {
        assert r.scopes[i] == r.scopes[..|s.scopes| - 1][i];
      }
      if WellFormed(s) {
        forall i | 0 <= i < |r.scopes|
          ensures r.scopes[i].Valid()
        {
          if i < |s.scopes| - 1 {
            assert r.scopes[i] == r.scopes[..|s.scopes| - 1][i] == s.scopes[i];
          }
        }
      }
    }
  }

  lemma ResolveLocalExtends(s: State, name: Token)
    ensures Extends(s, ResolveLocal(s, name), |s.scopes|)
    ensures WellFormed(s) ==> WellFormed(ResolveLocal(s, name))
  {
    var r := ResolveLocal(s, name);
    if |r.resolutions| > |s.resolutions| {
      var key := NameOf(name);
      var i := |s.scopes| - 1 - r.resolutions[|s.resolutions|].depth;
      MarkReadKept(s.scopes[i], key);
      forall j | 0 <= j < |s.scopes|
        ensures Kept(s.scopes[j], r.scopes[j]) && (s.scopes[j].Valid() ==> r.scopes[j].Valid())
      {
        if j != i {
          assert r.scopes[j] == s.scopes[j];
        }
      }
    }
  }

  /** Marking a name of a frame as read keeps the frame, and keeps it well formed. */
  lemma MarkReadKept(f: Frame, key: string)
    requires key in f.entries
    ensures var g := f.Put(key, f.entries[key].(read := true));
      Kept(f, g) && (f.Valid() ==> g.Valid())
  {
  }

  lemma EndScopeExtends(s: State)
    requires |s.scopes| > 0
    ensures Extends(s, EndScope(s), |s.scopes| - 1)
    ensures WellFormed(s) ==> WellFormed(EndScope(s))
  {
  }

  lemma DeclareParametersExtends(s: State, parameters: seq<Token>)
    ensures Extends(s, DeclareParameters(s, parameters), Below(s))
    ensures WellFormed(s) ==> WellFormed(DeclareParameters(s, parameters))
  {
    if parameters != [] {
      var p := parameters[|parameters| - 1];
      var s1 := DeclareParameters(s, parameters[..|parameters| - 1]);
      DeclareParametersExtends(s, parameters[..|parameters| - 1]);
      DeclareExtends(s1, NameOf(p), p.line);
      DefineExtends(Declare(s1, NameOf(p), p.line), NameOf(p), p.line);
      ExtendsTransitive(s, s1, Declare(s1, NameOf(p), p.line), Below(s));
      ExtendsTransitive(s, Declare(s1, NameOf(p), p.line), DeclareParameters(s, parameters), Below(s));
    }
  }

  /**
    * Resolving an expression keeps every frame (it only marks names as read) and every frame
    * stays well formed; errors and calls to the interpreter are only ever appended.
    */
  lemma {:induction false} ResolveExprExtends(s: State, e: Expression)
    ensures Extends(s, ResolveExpr(s, e), |s.scopes|)
    ensures WellFormed(s) ==> WellFormed(ResolveExpr(s, e))
    decreases e, 1
  {
    match e
    case And(_, _) => OperandsExtends(s, e);
    case Or(_, _) => OperandsExtends(s, e);
    case Binary(_, _, _, _) => OperandsExtends(s, e);
    case Assignment(_, _) => AssignmentExtends(s, e);
    case Call(_, _, _) => CallExtends(s, e);
    case Function(parameters, body) => ResolveFunctionExtends(s, parameters, body);
    case Grouping(inner) => ResolveExprExtends(s, inner);
    case Literal(_) => assert ResolveExpr(s, e) == s;
    case Unary(_, operand, _) => ResolveExprExtends(s, operand);
    case Variable(name) => VariableExtends(s, name);
    case Get(_, _) => assert ResolveExpr(s, e) == s;
    case Set(_, _, _) => assert ResolveExpr(s, e) == s;
  }

  /** The two operands of `and`, `or` or a binary operator, left first. */
  lemma {:induction false} OperandsExtends(s: State, e: Expression)
    requires e.And? || e.Or? || e.Binary?
    ensures Extends(s, ResolveExpr(s, e), |s.scopes|)
    ensures WellFormed(s) ==> WellFormed(ResolveExpr(s, e))
    decreases e, 0
  {
    var s1 := ResolveExpr(s, e.left);
    assert ResolveExpr(s, e) == ResolveExpr(s1, e.right);
    ResolveExprExtends(s, e.left);
    ResolveExprExtends(s1, e.right);
    ExtendsTransitive(s, s1, ResolveExpr(s, e), |s.scopes|);
  }

  /** An assignment: the value first, then the read mark on the assigned name. */
  lemma {:induction false} AssignmentExtends(s: State, e: Expression)
    requires e.Assignment?
    ensures Extends(s, ResolveExpr(s, e), |s.scopes|)
    ensures WellFormed(s) ==> WellFormed(ResolveExpr(s, e))
    decreases e, 0
  {
    var s1 := ResolveExpr(s, e.value);
    assert ResolveExpr(s, e) == ResolveLocal(s1, e.assignee);
    ResolveExprExtends(s, e.value);
    ResolveLocalExtends(s1, e.assignee);
    ExtendsTransitive(s, s1, ResolveExpr(s, e), |s.scopes|);
  }

  /** A call: the callee, then the arguments. */
  lemma {:induction false} CallExtends(s: State, e: Expression)
    requires e.Call?
    ensures Extends(s, ResolveExpr(s, e), |s.scopes|)
    ensures WellFormed(s) ==> WellFormed(ResolveExpr(s, e))
    decreases e, 0
  {
    var s1 := ResolveExpr(s, e.callee);
    assert ResolveExpr(s, e) == ResolveExprs(s1, e.arguments);
    ResolveExprExtends(s, e.callee);
    ResolveExprsExtends(s1, e.arguments);
    ExtendsTransitive(s, s1, ResolveExpr(s, e), |s.scopes|);
  }

  /** A variable read: the own-initialiser error, then the read mark. */
  lemma VariableExtends(s: State, name: Token)
    ensures Extends(s, ResolveExpr(s, Variable(name)), |s.scopes|)
    ensures WellFormed(s) ==> WellFormed(ResolveExpr(s, Variable(name)))
  {
    var s1 := if InOwnInitialiser(s, NameOf(name)) then RecordError(s, name.line, NameOf(name), OwnInitialiser) else s;
    assert ResolveExpr(s, Variable(name)) == ResolveLocal(s1, name);
    RecordErrorExtends(s, name.line, NameOf(name), OwnInitialiser);
    ResolveLocalExtends(s1, name);
    ExtendsTransitive(s, s1, ResolveExpr(s, Variable(name)), |s.scopes|);
  }

  /** Recording an error keeps every frame. */
  lemma RecordErrorExtends(s: State, line: nat, lexeme: string, message: string)
    ensures Extends(s, RecordError(s, line, lexeme, message), |s.scopes|)
    ensures WellFormed(s) ==> WellFormed(RecordError(s, line, lexeme, message))
  {
    var r := RecordError(s, line, lexeme, message);
    forall i | 0 <= i < |s.scopes| ensures Kept(s.scopes[i], r.scopes[i]) {
      assert r.scopes[i] == s.scopes[i];
    }
  }

  lemma {:induction false} ResolveExprsExtends(s: State, es: seq<Expression>)
    ensures Extends(s, ResolveExprs(s, es), |s.scopes|)
    ensures WellFormed(s) ==> WellFormed(ResolveExprs(s, es))
    decreases es, 0
  {
    if es != [] {
      var s1 := ResolveExprs(s, es[..|es| - 1]);
      ResolveExprsExtends(s, es[..|es| - 1]);
      ResolveExprExtends(s1, es[|es| - 1]);
      ExtendsTransitive(s, s1, ResolveExprs(s, es), |s.scopes|);
    }
  }

  /** Opening a frame keeps every frame there was, and the new frame is empty, so well formed. */
  lemma BeginScopeExtends(s: State)
    ensures Extends(s, BeginScope(s), |s.scopes|)
    ensures WellFormed(s) ==> WellFormed(BeginScope(s))
  {
    var r := BeginScope(s);
    forall i | 0 <= i < |s.scopes|
      ensures r.scopes[i] == s.scopes[i]
    {
    }
  }

  /** The parameters' frame opened and filled: every frame found is kept. */
  lemma FunctionOpening(s: State, parameters: seq<Token>)
    ensures var s1 := DeclareParameters(BeginScope(s.(currentFunction := InsideFunction)), parameters);
      && |s1.scopes| == |s.scopes| + 1
      && Extends(s, s1, |s.scopes|)
      && (WellFormed(s) ==> WellFormed(s1))
  {
    var s0 := s.(currentFunction := InsideFunction);
    var b1 := BeginScope(s0);
    assert Extends(s, s0, |s.scopes|) && (WellFormed(s) ==> WellFormed(s0)) by {
      forall i | 0 <= i < |s.scopes| ensures Kept(s.scopes[i], s0.scopes[i]) {
        assert s0.scopes[i] == s.scopes[i];
      }
    }
    BeginScopeExtends(s0);
    ExtendsTransitive(s, s0, b1, |s.scopes|);
    DeclareParametersExtends(b1, parameters);
    ExtendsTransitive(s, b1, DeclareParameters(b1, parameters), |s.scopes|);
  }

  /** The body's frame and then the parameters' frame closed: the frames below them are kept. */
  lemma FunctionClosing(s2: State)
    requires |s2.scopes| >= 2
    ensures Extends(s2, EndScope(EndScope(s2)), |s2.scopes| - 2)
    ensures WellFormed(s2) ==> WellFormed(EndScope(EndScope(s2)))
  {
    EndScopeExtends(s2);
    EndScopeExtends(EndScope(s2));
    ExtendsFewer(s2, EndScope(s2), |s2.scopes| - 1, |s2.scopes| - 2);
    ExtendsTransitive(s2, EndScope(s2), EndScope(EndScope(s2)), |s2.scopes| - 2);
  }

  /** A function literal or declaration leaves every frame it found as it was, up to reads. */
  lemma {:induction false} ResolveFunctionExtends(s: State, parameters: seq<Token>, body: seq<Statement>)
    ensures Extends(s, ResolveFunction(s, parameters, body), |s.scopes|)
    ensures WellFormed(s) ==> WellFormed(ResolveFunction(s, parameters, body))
    decreases body, 1
  {
    var s1 := DeclareParameters(BeginScope(s.(currentFunction := InsideFunction)), parameters);
    var s2 := ResolveStmts(BeginScope(s1), body);
    assert ResolveFunction(s, parameters, body) == EndScope(EndScope(s2)).(currentFunction := s.currentFunction);
    FunctionOpening(s, parameters);
    ResolveStmtsExtends(BeginScope(s1), body);
    FunctionClosing(s2);
    FunctionChain(s, s1, s2, s.currentFunction);
  }

  lemma FunctionChain(s: State, s1: State, s2: State, f: FunctionType)
    requires |s1.scopes| == |s.scopes| + 1 && |s2.scopes| == |s.scopes| + 2
    requires Extends(s, s1, |s.scopes|) && (WellFormed(s) ==> WellFormed(s1))
    requires Extends(BeginScope(s1), s2, |s.scopes| + 1) && (WellFormed(BeginScope(s1)) ==> WellFormed(s2))
    requires Extends(s2, EndScope(EndScope(s2)), |s.scopes|)
    requires WellFormed(s2) ==> WellFormed(EndScope(EndScope(s2)))
    ensures Extends(s, EndScope(EndScope(s2)).(currentFunction := f), |s.scopes|)
    ensures WellFormed(s) ==> WellFormed(EndScope(EndScope(s2)).(currentFunction := f))
  {
    var n := |s.scopes|;
    var r := EndScope(EndScope(s2));
    BeginScopeExtends(s1);
    ExtendsTransitive(s1, BeginScope(s1), s2, n + 1);
    ExtendsFewer(s1, s2, n + 1, n);
    ExtendsTransitive(s, s1, s2, n);
    ExtendsTransitive(s, s2, r, n);
    assert r.(currentFunction := f).scopes == r.scopes;
  }

  /**
    * Resolving a statement keeps every frame but the innermost, where it may declare names;
    * a block keeps even that one.
    */
  lemma {:induction false} ResolveStmtExtends(s: State, st: Statement)
    ensures Extends(s, ResolveStmt(s, st), Below(s))
    ensures st.Block? ==> Extends(s, ResolveStmt(s, st), |s.scopes|)
    ensures WellFormed(s) ==> WellFormed(ResolveStmt(s, st))
    decreases st, 1
  {
    var n := Below(s);
    var r := ResolveStmt(s, st);
    match st
    case Block(statements, _) => BlockExtends(s, st);
    case Break(_) =>
    case ExpressionStatement(e, _) =>
      ResolveExprExtends(s, e);
      ExtendsFewer(s, r, |s.scopes|, n);
    case Print(e, _) =>
      ResolveExprExtends(s, e);
      ExtendsFewer(s, r, |s.scopes|, n);
    case Function(name, parameters, body) => FunctionDeclarationExtends(s, st);
    case If(condition, thenBranch, elseBranch, _) => IfExtends(s, st);
    case Return(value, line) =>
      var s1 := if s.currentFunction == TopLevel then RecordError(s, line, "return", TopLevelReturn) else s;
      assert Extends(s, s1, |s.scopes|);
      if value.Some? {
        ResolveExprExtends(s1, value.value);
        ExtendsTransitive(s, s1, r, |s.scopes|);
      }
      ExtendsFewer(s, r, |s.scopes|, n);
    case VarDeclaration(name, initialiser, line) => VarDeclarationExtends(s, st);
    case While(condition, loopBody, _) =>
      var c := ResolveExpr(s, condition);
      ResolveExprExtends(s, condition);
      ExtendsFewer(s, c, |s.scopes|, n);
      ResolveStmtExtends(c, loopBody);
      ExtendsTransitive(s, c, r, n);
    case ClassDeclaration(_, _) =>
  }

  lemma {:induction false} BlockExtends(s: State, st: Statement)
    requires st.Block?
    ensures Extends(s, ResolveStmt(s, st), |s.scopes|)
    ensures WellFormed(s) ==> WellFormed(ResolveStmt(s, st))
    decreases st, 0
  {
    var b := BeginScope(s);
    var s1 := ResolveStmts(b, st.statements);
    assert Extends(s, b, |s.scopes|);
    ResolveStmtsExtends(b, st.statements);
    ExtendsTransitive(s, b, s1, |s.scopes|);
    EndScopeExtends(s1);
    ExtendsTransitive(s, s1, ResolveStmt(s, st), |s.scopes|);
  }

  lemma {:induction false} FunctionDeclarationExtends(s: State, st: Statement)
    requires st.Function?
    ensures Extends(s, ResolveStmt(s, st), Below(s))
    ensures WellFormed(s) ==> WellFormed(ResolveStmt(s, st))
    decreases st, 0
  {
    var n := Below(s);
    var d := Declare(s, NameOf(st.functionName), st.Line());
    var s1 := Define(d, NameOf(st.functionName), st.Line());
    DeclareExtends(s, NameOf(st.functionName), st.Line());
    DefineExtends(d, NameOf(st.functionName), st.Line());
    ExtendsTransitive(s, d, s1, n);
    ResolveFunctionExtends(s1, st.parameters, st.body);
    ExtendsFewer(s1, ResolveStmt(s, st), |s.scopes|, n);
    ExtendsTransitive(s, s1, ResolveStmt(s, st), n);
  }

  lemma {:induction false} IfExtends(s: State, st: Statement)
    requires st.If?
    ensures Extends(s, ResolveStmt(s, st), Below(s))
    ensures WellFormed(s) ==> WellFormed(ResolveStmt(s, st))
    decreases st, 0
  {
    var n := Below(s);
    var c := ResolveExpr(s, st.condition);
    var s1 := ResolveStmt(c, st.thenBranch);
    ResolveExprExtends(s, st.condition);
    ExtendsFewer(s, c, |s.scopes|, n);
    ResolveStmtExtends(c, st.thenBranch);
    ExtendsTransitive(s, c, s1, n);
    if st.elseBranch.Some? {
      ResolveStmtExtends(s1, st.elseBranch.value);
      ExtendsTransitive(s, s1, ResolveStmt(s, st), n);
    }
  }

  lemma {:induction false} VarDeclarationExtends(s: State, st: Statement)
    requires st.VarDeclaration?
    ensures Extends(s, ResolveStmt(s, st), Below(s))
    ensures WellFormed(s) ==> WellFormed(ResolveStmt(s, st))
    decreases st, 0
  {
    var n := Below(s);
    var s1 := Declare(s, st.varName, st.sourceLine);
    var s2 := if st.initialiser.Some? then ResolveExpr(s1, st.initialiser.value) else s1;
    DeclareExtends(s, st.varName, st.sourceLine);
    if st.initialiser.Some? {
      ResolveExprExtends(s1, st.initialiser.value);
      ExtendsFewer(s1, s2, |s.scopes|, n);
      ExtendsTransitive(s, s1, s2, n);
    }
    DefineExtends(s2, st.varName, st.sourceLine);
    ExtendsTransitive(s, s2, ResolveStmt(s, st), n);
  }

  lemma {:induction false} ResolveStmtsExtends(s: State, ss: seq<Statement>)
    ensures Extends(s, ResolveStmts(s, ss), Below(s))
    ensures WellFormed(s) ==> WellFormed(ResolveStmts(s, ss))
    decreases ss, 0
  {
    if ss != [] {
      var s1 := ResolveStmts(s, ss[..|ss| - 1]);
      ResolveStmtsExtends(s, ss[..|ss| - 1]);
      ResolveStmtExtends(s1, ss[|ss| - 1]);
      ExtendsTransitive(s, s1, ResolveStmts(s, ss), Below(s));
    }
  }

  /** Any state a fresh resolver reaches has well-formed frames. */
  lemma ReachableWellFormed(statements: seq<Statement>)
    ensures WellFormed(ResolveStmts(Initial, statements))
    ensures Initial.errors <= ResolveStmts(Initial, statements).errors
  {
    assert WellFormed(Initial);
    ResolveStmtsExtends(Initial, statements);
  }

  /** One more parameter, new to the innermost frame, goes last with the next slot, initialised. */
  lemma DeclareParameter(s: State, name: string, line: nat)
    requires |s.scopes| > 0 && name !in Top(s).entries
    ensures var r := Define(Declare(s, name, line), name, line);
      && r.errors == s.errors
      && r.scopes[..|s.scopes| - 1] == s.scopes[..|s.scopes| - 1]
      && Top(r) == Top(s).Put(name, VariableResolution(true, false, Top(s).Size(), line))
  {
    var d := Declare(s, name, line);
    assert Top(d) == Top(s).Put(name, VariableResolution(false, false, Top(s).Size(), line));
  }

  /** A frame holding exactly these parameters, in order, initialised and unread, in slots 0, 1, 2, ... */
  ghost predicate SlotsInOrder(f: Frame, parameters: seq<Token>) {
    && f.Valid()
    && f.order == Names(parameters)
    && forall i | 0 <= i < |parameters| ::
         NameOf(parameters[i]) in f.entries
         && f.entries[NameOf(parameters[i])] == VariableResolution(true, false, i, parameters[i].line)
  }

  lemma SlotsExtend(f: Frame, parameters: seq<Token>, p: Token)
    requires SlotsInOrder(f, parameters) && NameOf(p) !in f.entries
    ensures SlotsInOrder(f.Put(NameOf(p), VariableResolution(true, false, |parameters|, p.line)), parameters + [p])
  {
    var ps := parameters + [p];
    assert ps[..|parameters|] == parameters;
    var g := f.Put(NameOf(p), VariableResolution(true, false, |parameters|, p.line));
    assert g.order == Names(ps);
    forall i | 0 <= i < |ps|
      ensures NameOf(ps[i]) in g.entries && g.entries[NameOf(ps[i])] == VariableResolution(true, false, i, ps[i].line)
    {
      if i < |parameters| {
        assert ps[i] == parameters[i];
        assert NameOf(parameters[i]) in f.entries;
      }
    }
  }

  /**
    * Parameters with distinct names, declared into a new frame, take slots 0, 1, 2, ... in
    * order, are initialised and unread, and raise no error.
    */
  lemma {:induction false} ParameterSlots(s: State, parameters: seq<Token>)
    requires |s.scopes| > 0 && Top(s) == EmptyFrame
    requires Distinct(Names(parameters))
    ensures var r := DeclareParameters(s, parameters);
      && r.errors == s.errors
      && r.scopes[..|s.scopes| - 1] == s.scopes[..|s.scopes| - 1]
      && SlotsInOrder(Top(r), parameters)
  {
    if parameters != [] {
      var n := |parameters| - 1;
      var p := parameters[n];
      LastNameFresh(parameters);
      ParameterSlots(s, parameters[..n]);
      ParameterSlotsStep(s, DeclareParameters(s, parameters[..n]), parameters[..n], p);
      assert parameters[..n] + [p] == parameters;
    }
  }

  /** With distinct names, the earlier parameters' names are distinct and exclude the last one's. */
  lemma LastNameFresh(parameters: seq<Token>)
    requires parameters != [] && Distinct(Names(parameters))
    ensures Distinct(Names(parameters[..|parameters| - 1]))
    ensures NameOf(parameters[|parameters| - 1]) !in Names(parameters[..|parameters| - 1])
  {
    var n := |parameters| - 1;
    assert Names(parameters[..n]) == Names(parameters)[..n];
    assert Names(parameters)[n] == NameOf(parameters[n]);
  }

  /** One more parameter, new to a frame holding the earlier ones in order, takes the next slot. */
  lemma ParameterSlotsStep(s: State, s1: State, earlier: seq<Token>, p: Token)
    requires |s.scopes| > 0 && |s1.scopes| == |s.scopes|
    requires s1.errors == s.errors && s1.scopes[..|s.scopes| - 1] == s.scopes[..|s.scopes| - 1]
    requires SlotsInOrder(Top(s1), earlier) && NameOf(p) !in Names(earlier)
    ensures var r := Define(Declare(s1, NameOf(p), p.line), NameOf(p), p.line);
      && r.errors == s.errors
      && r.scopes[..|s.scopes| - 1] == s.scopes[..|s.scopes| - 1]
      && SlotsInOrder(Top(r), earlier + [p])
  {
    DeclareParameter(s1, NameOf(p), p.line);
    SlotsExtend(Top(s1), earlier, p);
  }

  /**
    * `var x = init;` for a name new to the innermost frame: the name goes last in that frame
    * with the frame's old size as its slot, initialised, and the frames outside are kept.
    */
  lemma FreshLocalSlot(s: State, name: string, initialiser: Option<Expression>, line: nat)
    requires |s.scopes| > 0 && name !in Top(s).entries
    ensures var r := ResolveStmt(s, VarDeclaration(name, initialiser, line));
      && |r.scopes| == |s.scopes|
      && Top(r).order == Top(s).order + [name]
      && name in Top(r).entries
      && Top(r).entries[name].initialised
      && Top(r).entries[name].index == |Top(s).order|
      && Top(r).entries[name].line == line
      && Extends(s, r, |s.scopes| - 1)
  {
    var st := VarDeclaration(name, initialiser, line);
    var s1 := Declare(s, name, line);
    var s2 := if initialiser.Some? then ResolveExpr(s1, initialiser.value) else s1;
    ResolveStmtExtends(s, st);
    if initialiser.Some? {
      ResolveExprExtends(s1, initialiser.value);
      assert Kept(Top(s1), Top(s2));
    }
  }

  /**
    * A function declaration enters its name, initialised, in the enclosing frame before its
    * body is resolved, so the body may call it, and the name is still there afterwards.
    */
  lemma FunctionNameVisible(s: State, name: Token, parameters: seq<Token>, body: seq<Statement>)
    requires |s.scopes| > 0
    ensures var before := Define(Declare(s, NameOf(name), name.line), NameOf(name), name.line);
      && NameOf(name) in Top(before).entries && Top(before).entries[NameOf(name)].initialised
      && ResolveStmt(s, Statement.Function(name, parameters, body)) == ResolveFunction(before, parameters, body)
    ensures var r := ResolveStmt(s, Statement.Function(name, parameters, body));
      NameOf(name) in Top(r).entries && Top(r).entries[NameOf(name)].initialised
  {
    var key := NameOf(name);
    var k := |s.scopes| - 1;
    var before := Define(Declare(s, key, name.line), key, name.line);
    DeclareThenDefine(s, key, name.line);
    assert Top(before) == Top(s).Put(key, VariableResolution(true, false, Top(s).Size(), name.line));
    FunctionDeclarationStep(s, name, parameters, body);
    var r := ResolveFunction(before, parameters, body);
    ResolveFunctionExtends(before, parameters, body);
    assert Kept(before.scopes[k], r.scopes[k]);
    KeptInitialised(Top(before), Top(r), key);
  }

  /** A kept frame still holds every initialised name of the frame it was kept from. */
  lemma KeptInitialised(f: Frame, g: Frame, key: string)
    requires Kept(f, g) && key in f.entries && f.entries[key].initialised
    ensures key in g.entries && g.entries[key].initialised
  {
  }

  /** A function declaration defines its name and then resolves the function. */
  lemma FunctionDeclarationStep(s: State, name: Token, parameters: seq<Token>, body: seq<Statement>)
    ensures ResolveStmt(s, Statement.Function(name, parameters, body))
         == ResolveFunction(Define(Declare(s, NameOf(name), name.line), NameOf(name), name.line), parameters, body)
  {
    assert Statement.Function(name, parameters, body).Line() == name.line;
  }

  /**
    * `var a = a;`: reading a name in its own initialiser is reported at the reading token's
    * line, after any redeclaration error.
    */
  lemma OwnInitialiserReported(s: State, name: Token, line: nat)
    requires |s.scopes| > 0
    ensures var key := NameOf(name);
      var r := ResolveStmt(s, VarDeclaration(key, Some(Variable(name)), line));
      var k := |s.errors| + (if key in Top(s).entries then 1 else 0);
      && |r.errors| == k + 1
      && r.errors[k] == ResolveError(name.line, key, OwnInitialiser)
  {
    var key := NameOf(name);
    var s1 := Declare(s, key, line);
    assert InOwnInitialiser(s1, key);
    var s2 := ResolveExpr(s1, Variable(name));
    assert s2.errors == s1.errors + [ResolveError(name.line, key, OwnInitialiser)];
    ResolveExprExtends(s1, Variable(name));
    assert Kept(Top(s1), Top(s2));
    assert Define(s2, key, line).errors == s2.errors;
  }

  /**
    * A name declared and initialised in the innermost frame is read without error, and the
    * read is reported to the interpreter at distance 0 with the name's slot.
    */
  lemma LocalReadResolved(s: State, name: Token)
    requires |s.scopes| > 0 && NameOf(name) in Top(s).entries && Top(s).entries[NameOf(name)].initialised
    ensures var r := ResolveExpr(s, Variable(name));
      && r.errors == s.errors
      && r.resolutions == s.resolutions + [ResolvedLocal(name, 0, Top(s).entries[NameOf(name)].index)]
      && r.scopes == s.scopes[|s.scopes| - 1 := Top(s).Put(NameOf(name), Top(s).entries[NameOf(name)].(read := true))]
  {
  }

  /**
    * `return` outside any function is reported before the returned value is resolved; inside
    * a function it raises nothing of its own.
    */
  lemma ReturnAtTopLevelReported(s: State, value: Option<Expression>, line: nat)
    ensures var r := ResolveStmt(s, Statement.Return(value, line));
      s.currentFunction == TopLevel ==>
        |r.errors| > |s.errors| && r.errors[..|s.errors| + 1] == s.errors + [ResolveError(line, "return", TopLevelReturn)]
    ensures var r := ResolveStmt(s, Statement.Return(value, line));
      s.currentFunction == TopLevel ==>
        r == (var s1 := RecordError(s, line, "return", TopLevelReturn); if value.Some? then ResolveExpr(s1, value.value) else s1)
    ensures var r := ResolveStmt(s, Statement.Return(value, line));
      s.currentFunction == InsideFunction ==> r == (if value.Some? then ResolveExpr(s, value.value) else s)
  {
    if s.currentFunction == TopLevel && value.Some? {
      var s1 := RecordError(s, line, "return", TopLevelReturn);
      ResolveExprExtends(s1, value.value);
      assert s1.errors <= ResolveExpr(s1, value.value).errors;
    }
  }

  /** Each "never used" error concerns an unread name among the first `n` of the frame, at its declaration line. */
  lemma {:induction false} UnusedErrorsSound(f: Frame, n: nat)
    requires n <= |f.order|
    ensures forall e | e in UnusedErrors(f, n) ::
      && e.message == NeverUsed && e.lexeme in f.order[..n] && e.lexeme in f.entries
      && !f.entries[e.lexeme].read && e.line == f.entries[e.lexeme].line
  {
    if n > 0 {
      UnusedErrorsSound(f, n - 1);
      assert f.order[..n] == f.order[..n - 1] + [f.order[n - 1]];
    }
  }

  /** Every unread name among the first `n` of a well-formed frame gets a "never used" error. */
  lemma {:induction false} UnusedErrorsComplete(f: Frame, n: nat)
    requires f.Valid() && n <= |f.order|
    ensures forall i | 0 <= i < n && !f.entries[f.order[i]].read ::
      ResolveError(f.entries[f.order[i]].line, f.order[i], NeverUsed) in UnusedErrors(f, n)
  {
    if n > 0 {
      UnusedErrorsComplete(f, n - 1);
    }
  }

  /** In a well-formed frame no name gets two "never used" errors. */
  lemma {:induction false} UnusedErrorsDistinct(f: Frame, n: nat)
    requires f.Valid() && n <= |f.order|
    ensures forall a, b | 0 <= a < b < |UnusedErrors(f, n)| :: UnusedErrors(f, n)[a].lexeme != UnusedErrors(f, n)[b].lexeme
  {
    if n > 0 {
      UnusedErrorsDistinct(f, n - 1);
      UnusedErrorsSound(f, n - 1);
      assert f.order[n - 1] !in f.order[..n - 1];
    }
  }

  /** Closing a frame reports exactly its unread names, once each, and forgets the frame. */
  lemma EndScopeReportsUnused(s: State)
    requires |s.scopes| > 0 && WellFormed(s)
    ensures var r := EndScope(s);
      && r.scopes == s.scopes[..|s.scopes| - 1]
      && r.errors[..|s.errors|] == s.errors
      && (forall e | e in r.errors[|s.errors|..] ::
            e.message == NeverUsed && e.lexeme in Top(s).entries && !Top(s).entries[e.lexeme].read
            && e.line == Top(s).entries[e.lexeme].line)
      && (forall k | k in Top(s).entries && !Top(s).entries[k].read ::
            ResolveError(Top(s).entries[k].line, k, NeverUsed) in r.errors[|s.errors|..])
  {
    var f := Top(s);
    assert f.Valid();
    UnusedErrorsSound(f, |f.order|);
    UnusedErrorsComplete(f, |f.order|);
    assert f.order[..|f.order|] == f.order;
    assert EndScope(s).errors[|s.errors|..] == UnusedErrors(f, |f.order|);
    forall k | k in f.entries && !f.entries[k].read
      ensures ResolveError(f.entries[k].line, k, NeverUsed) in UnusedErrors(f, |f.order|)
    {
      var i :| 0 <= i < |f.order| && f.order[i] == k;
    }
  }

  /** Writing a name twice into a frame leaves the second value, in the place the first write gave it. */
  lemma PutTwice(f: Frame, name: string, first: VariableResolution, second: VariableResolution)
    ensures f.Put(name, first).Put(name, second) == f.Put(name, second)
  {
    assert f.Put(name, first).Put(name, second).entries == f.Put(name, second).entries;
  }

  /** `declare` then `define` of one name: it ends initialised in the next slot, and only a redeclaration is reported. */
  lemma DeclareThenDefine(s: State, name: string, line: nat)
    requires |s.scopes| > 0
    ensures var r := Define(Declare(s, name, line), name, line);
      && r.resolutions == s.resolutions && r.currentFunction == s.currentFunction
      && r.scopes == s.scopes[..|s.scopes| - 1]
                     + [Top(s).Put(name, VariableResolution(true, false, Top(s).Size(), line))]
      && r.errors == s.errors + (if name in Top(s).entries then [ResolveError(line, name, AlreadyDeclared)] else [])
  {
    var k := |s.scopes| - 1;
    var v := VariableResolution(false, false, Top(s).Size(), line);
    var d := Declare(s, name, line);
    assert Top(d) == Top(s).Put(name, v);
    assert name in Top(d).entries && Top(d).entries[name] == v;
    var r := Define(d, name, line);
    assert Top(r) == Top(d).Put(name, v.(initialised := true));
    PutTwice(Top(s), name, v, v.(initialised := true));
    assert r.scopes[..k] == s.scopes[..k];
    assert r.scopes == r.scopes[..k] + [Top(r)];
  }

  /** `var name = <literal>;`: the name takes the innermost frame's next slot and ends initialised. */
  lemma DeclareLiteral(s: State, name: string, lit: Tokens.Literal, line: nat)
    requires |s.scopes| > 0
    ensures var r := ResolveStmt(s, VarDeclaration(name, Some(Literal(lit)), line));
      && r.resolutions == s.resolutions && r.currentFunction == s.currentFunction
      && r.scopes == s.scopes[..|s.scopes| - 1]
                     + [Top(s).Put(name, VariableResolution(true, false, Top(s).Size(), line))]
      && r.errors == s.errors + (if name in Top(s).entries then [ResolveError(line, name, AlreadyDeclared)] else [])
  {
    LiteralInitialiser(s, name, lit, line);
    DeclareThenDefine(s, name, line);
  }

  /** A literal initialiser resolves nothing: the declaration is a `declare` then a `define`. */
  lemma LiteralInitialiser(s: State, name: string, lit: Tokens.Literal, line: nat)
    ensures ResolveStmt(s, VarDeclaration(name, Some(Literal(lit)), line)) == Define(Declare(s, name, line), name, line)
  {
    assert ResolveExpr(Declare(s, name, line), Literal(lit)) == Declare(s, name, line);
  }

  lemma IdentifierName(t: Token)
    requires t.kind.Identifier?
    ensures NameOf(t) == t.kind.name
  {
  }

  /** Two statements are resolved one after the other. */
  lemma TwoStatements(s: State, first: Statement, second: Statement)
    ensures ResolveStmts(s, [first, second]) == ResolveStmt(ResolveStmt(s, first), second)
  {
    assert [first, second][..1] == [first];
    assert [first][..0] == [];
    assert ResolveStmts(s, [first]) == ResolveStmt(ResolveStmts(s, []), first);
  }

  /** A `var` of a name in a fresh frame: the frame then holds just that name, initialised in slot 0. */
  lemma FirstDeclaration(s: State, name: string, lit: Tokens.Literal, line: nat)
    requires |s.scopes| > 0 && Top(s) == EmptyFrame
    ensures var r := ResolveStmt(s, VarDeclaration(name, Some(Literal(lit)), line));
      && r == s.(scopes := s.scopes[..|s.scopes| - 1] + [Frame([name], map[name := VariableResolution(true, false, 0, line)])])
  {
    DeclareLiteral(s, name, lit, line);
    assert EmptyFrame.Put(name, VariableResolution(true, false, 0, line))
        == Frame([name], map[name := VariableResolution(true, false, 0, line)]);
  }

  /**
    * Two declarations of one name in a fresh frame, as in `{ var a = 1; var a = 2; print a; }`:
    * the second is reported once, and the name is left initialised in slot 1, the frame's size
    * when it was declared again.
    */
  lemma Redeclaration(s: State, name: string, lit1: Tokens.Literal, lit2: Tokens.Literal, line1: nat, line2: nat)
    requires |s.scopes| > 0 && Top(s) == EmptyFrame
    ensures var r := ResolveStmts(s, [VarDeclaration(name, Some(Literal(lit1)), line1),
                                      VarDeclaration(name, Some(Literal(lit2)), line2)]);
      && r.errors == s.errors + [ResolveError(line2, name, AlreadyDeclared)]
      && r.scopes == s.scopes[..|s.scopes| - 1] + [Frame([name], map[name := VariableResolution(true, false, 1, line2)])]
      && r.resolutions == s.resolutions
  {
    var k := |s.scopes| - 1;
    var first := VarDeclaration(name, Some(Literal(lit1)), line1);
    TwoStatements(s, first, VarDeclaration(name, Some(Literal(lit2)), line2));
    FirstDeclaration(s, name, lit1, line1);
    var s1 := ResolveStmt(s, first);
    assert s1.scopes[..k] == s.scopes[..k];
    SecondDeclaration(s1, name, lit2, line1, line2);
  }

  /** A `var` of the one name a frame already holds, in slot 0: reported, and moved to slot 1. */
  lemma SecondDeclaration(s: State, name: string, lit: Tokens.Literal, line1: nat, line2: nat)
    requires |s.scopes| > 0 && Top(s) == Frame([name], map[name := VariableResolution(true, false, 0, line1)])
    ensures var r := ResolveStmt(s, VarDeclaration(name, Some(Literal(lit)), line2));
      && r.errors == s.errors + [ResolveError(line2, name, AlreadyDeclared)]
      && r.scopes == s.scopes[..|s.scopes| - 1] + [Frame([name], map[name := VariableResolution(true, false, 1, line2)])]
      && r.resolutions == s.resolutions
  {
    DeclareLiteral(s, name, lit, line2);
    assert Top(s).Put(name, VariableResolution(true, false, 1, line2))
        == Frame([name], map[name := VariableResolution(true, false, 1, line2)]);
  }

  /** `return nil;` */
  lemma ReturnOutsideFunction()
    ensures ResolveProgram([Statement.Return(Some(Literal(KwLit(Nil))), 1)]) == [ResolveError(1, "return", TopLevelReturn)]
  {
    var st := Statement.Return(Some(Literal(KwLit(Nil))), 1);
    assert ResolveStmts(Initial, [st]) == ResolveStmt(Initial, st);
    assert ResolveStmt(Initial, st) == RecordError(Initial, 1, "return", TopLevelReturn);
  }

  /** `{ var a = 1; }`: exactly one "Variable is never used." for `a`, at its declaration. */
  lemma UnusedLocal(name: string, lit: Tokens.Literal, line: nat, blockLine: nat)
    ensures var block := Block([VarDeclaration(name, Some(Literal(lit)), line)], blockLine);
      ResolveStmts(Initial, [block]) == State([EmptyFrame], [ResolveError(line, name, NeverUsed)], [], TopLevel)
  {
    var declaration := VarDeclaration(name, Some(Literal(lit)), line);
    var opening := BeginScope(Initial);
    assert opening == State([EmptyFrame, EmptyFrame], [], [], TopLevel);
    FirstDeclaration(opening, name, lit, line);
    var f1 := Frame([name], map[name := VariableResolution(true, false, 0, line)]);
    var s1 := State([EmptyFrame, f1], [], [], TopLevel);
    assert ResolveStmt(opening, declaration) == s1;
    assert [declaration][..0] == [];
    assert ResolveStmts(opening, [declaration]) == s1;
    assert UnusedErrors(f1, 1) == [ResolveError(line, name, NeverUsed)];
    var block := Block([declaration], blockLine);
    assert [block][..0] == [];
    assert ResolveStmts(Initial, [block]) == ResolveStmt(Initial, block) == EndScope(s1);
  }

  /** `{ var a = 1; } print a;`: the block's `a` is reported unused, and the later read resolves to nothing. */
  lemma BlockNamesDropped(a: Token, lit: Tokens.Literal, line: nat, blockLine: nat, printLine: nat)
    requires a.kind.Identifier?
    ensures var block := Block([VarDeclaration(a.kind.name, Some(Literal(lit)), line)], blockLine);
      ResolveStmts(Initial, [block, Statement.Print(Variable(a), printLine)])
        == State([EmptyFrame], [ResolveError(line, a.kind.name, NeverUsed)], [], TopLevel)
  {
    var block := Block([VarDeclaration(a.kind.name, Some(Literal(lit)), line)], blockLine);
    var use := Statement.Print(Variable(a), printLine);
    UnusedLocal(a.kind.name, lit, line, blockLine);
    var s1 := State([EmptyFrame], [ResolveError(line, a.kind.name, NeverUsed)], [], TopLevel);
    assert [block][..0] == [];
    assert ResolveStmt(Initial, block) == s1;
    IdentifierName(a);
    assert Innermost(s1.scopes, NameOf(a)) == None;
    assert ResolveStmt(s1, use) == s1;
    TwoStatements(Initial, block, use);
  }
}
