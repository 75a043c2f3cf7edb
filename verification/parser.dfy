/**
  * The recursive-descent parser of src/main/kotlin/Parser.kt: a token cursor and one method per
  * precedence level (equality, comparison, term, factor, unary, primary).
  *
  * What a successful parse means is stated by three functions on trees: `AtLevel` (the shape
  * the precedence ladder allows), `Spelled` (where a tree ends when read off the tokens) and
  * `EndsBefore` (no operator the level could still take follows). A parse that reaches one of
  * the source's `TODO()` calls yields `NotImplemented` with the cursor position where
  * `primary` gave up. `ParsePrimary`, `ParseUnary`, `ParseLevel` and `ParseLoop` compute what
  * each method returns and where it leaves the cursor; the methods are proved equal to them.
  */
module Parsing {
  import opened Util
  import opened Tokens
  import opened Ast

  datatype ParseResult = Parsed(expr: Expression) | NotImplemented(at: nat)

  /** What a parsing function returns: its result and where it leaves the cursor. */
  datatype Progress = Progress(result: ParseResult, next: nat)

  /** The binding strength of a binary operator: 1 binds tightest, 4 loosest. */
  function Precedence(op: BinaryOp): (p: nat)
    ensures 1 <= p <= 4
  {
    match op
    case Slash => 1
    case Asterisk => 1
    case Minus => 2
    case Plus => 2
    case GreaterThan => 3
    case GreaterThanOrEqual => 3
    case LessThan => 3
    case LessThanOrEqual => 3
    case DoubleEquals => 4
    case NotEqual => 4
  }

  /** The kinds each level's `match` call lists, in the source's order. */
  function LevelKinds(level: nat): seq<TokenType>
    requires 1 <= level <= 4
  {
    match level
    case 1 => [Sym(Slash), Sym(Asterisk)]
    case 2 => [Sym(Minus), Sym(Plus)]
    case 3 => [Sym(GreaterThan), Sym(GreaterThanOrEqual), Sym(LessThan), Sym(LessThanOrEqual)]
    case 4 => [Sym(DoubleEquals), Sym(NotEqual)]
  }

  /** The level a token kind is an operator of, or 0 when it is no binary operator. */
  function OperatorLevel(kind: TokenType): nat {
    if kind.Sym? && kind.symbol.IsBinaryOp() then Precedence(kind.symbol) else 0
  }

  /** A level's `match` list holds exactly the operators of that level. */
  lemma LevelKindsAreOperators(level: nat, kind: TokenType)
    requires 1 <= level <= 4
    ensures kind in LevelKinds(level) <==> OperatorLevel(kind) == level
  {
  }

  /**
    * The trees the ladder builds at a level: at level 0, a literal under any number of prefix
    * operators; at level k, also a binary node whose operator's level p is at most k, whose left
    * operand is a level-p tree and whose right operand is a level p - 1 tree.
    */
  predicate AtLevel(e: Expression, level: nat) {
    match e
    case Literal(_) => true
    case Unary(_, operand, _) => AtLevel(operand, 0)
    case Binary(left, op, right, _) =>
      Precedence(op) <= level && AtLevel(left, Precedence(op)) && AtLevel(right, Precedence(op) - 1)
    case _ => false
  }

  /**
    * Where a tree ends when it is read off the tokens from position `from`, or none when the
    * tokens do not spell it there. A keyword literal takes a token equal to itself; a string or
    * number literal needs the token under the cursor to be itself but takes nothing, because
    * `primary` returns it without moving the cursor. An operator takes a token of its own
    * symbol on the line the node records. Trees this parser never builds are spelled nowhere.
    */
  function Spelled(tokens: seq<Token>, from: nat, e: Expression): (end: Option<nat>)
    ensures end.Some? ==> from <= end.value <= |tokens|
    decreases e
  {
    match e
    case Literal(lit) =>
      if from < |tokens| && tokens[from].kind == lit then Some(if lit.KwLit? then from + 1 else from) else None
    case Unary(op, operand, line) =>
      if from < |tokens| && tokens[from].kind == Sym(op) && tokens[from].line == line then Spelled(tokens, from + 1, operand)
      else None
    case Binary(left, op, right, line) =>
      var l := Spelled(tokens, from, left);
      if l.Some? && l.value < |tokens| && tokens[l.value].kind == Sym(op) && tokens[l.value].line == line then
        Spelled(tokens, l.value + 1, right)
      else None
    case _ => None
  }

  /** Position `p` does not hold an operator of `level` or tighter: a loop at that level stops there. */
  predicate EndsBefore(tokens: seq<Token>, p: nat, level: nat) {
    p >= |tokens| || OperatorLevel(tokens[p].kind) == 0 || OperatorLevel(tokens[p].kind) > level
  }

  /** `primary` throws at `p`: no token is left, or the token there is no literal. */
  predicate PrimaryFails(tokens: seq<Token>, p: nat) {
    p >= |tokens| || !tokens[p].kind.IsLiteral()
  }

  /**
    * What a call at a level that started at `from` and left the cursor at `to` produced: a tree
    * of that level that the tokens from `from` spell up to exactly `to`, followed by no operator
    * the level could take, or a `TODO()` reached at the cursor.
    */
  predicate Produced(tokens: seq<Token>, from: nat, to: nat, r: ParseResult, level: nat) {
    && from <= to <= |tokens|
    && (r.Parsed? ==> AtLevel(r.expr, level) && Spelled(tokens, from, r.expr) == Some(to) && EndsBefore(tokens, to, level))
    && (r.NotImplemented? ==> r.at == to && PrimaryFails(tokens, to))
  }

  /**
    * `primary()` on the tokens from `p`: the result and where the cursor ends. `false`, `true`
    * and `nil` are matched in that order and consumed; another literal is returned in place;
    * anything else, or no token at all, is a `TODO()`.
    */
  function ParsePrimary(tokens: seq<Token>, p: nat): (out: Progress)
    requires p <= |tokens|
    ensures out.result.NotImplemented? <==> PrimaryFails(tokens, p)
    ensures out.result.NotImplemented? ==> out == Progress(NotImplemented(p), p)
    ensures out.result.Parsed? ==> out.result.expr == Literal(tokens[p].kind) && out.next == p + (if tokens[p].kind.KwLit? then 1 else 0)
  {
    if p < |tokens| && tokens[p].kind in [KwLit(False), KwLit(True), KwLit(Nil)] then
      Progress(Parsed(Literal(tokens[p].kind)), p + 1)
    else if p < |tokens| && tokens[p].kind.IsLiteral() then
      OtherThanKeywordLiterals(tokens[p].kind);
      Progress(Parsed(Literal(tokens[p].kind)), p)
    else
      Progress(NotImplemented(p), p)
  }

  /** `unary()` from `from`: a `!` or `-` prefix around another unary, else `primary()`. */
  function ParseUnary(tokens: seq<Token>, from: nat): (out: Progress)
    requires from <= |tokens|
    ensures from <= out.next <= |tokens|
    decreases |tokens| - from
  {
    if from < |tokens| && (tokens[from].kind == Sym(Not) || tokens[from].kind == Sym(Minus)) then
      var operand := ParseUnary(tokens, from + 1);
      if operand.result.NotImplemented? then operand
      else Progress(Parsed(Unary(tokens[from].kind.symbol, operand.result.expr, tokens[from].line)), operand.next)
    else
      ParsePrimary(tokens, from)
  }

  /**
    * The parse of precedence level `level` from `from`: `unary()` at 0; at 1 to 4 (`factor()`,
    * `term()`, `comparison()`, `equality()`) a first operand one level down and then the loop.
    */
  function ParseLevel(tokens: seq<Token>, from: nat, level: nat): (out: Progress)
    requires from <= |tokens| && level <= 4
    ensures from <= out.next <= |tokens|
    decreases |tokens| - from, level, 1
  {
    if level == 0 then
      ParseUnary(tokens, from)
    else
      var left := ParseLevel(tokens, from, level - 1);
      if left.result.NotImplemented? then left else ParseLoop(tokens, left.result.expr, left.next, level)
  }

  /**
    * The `while (match(...))` loop of a level from 1 to 4 with `expr` parsed so far and the
    * cursor at `p`: each operator's right operand is parsed one level down and folded in on the
    * right; an operand that reached a `TODO()` ends the parse there.
    */
  function ParseLoop(tokens: seq<Token>, expr: Expression, p: nat, level: nat): (out: Progress)
    requires p <= |tokens| && 1 <= level <= 4
    ensures p <= out.next <= |tokens|
    decreases |tokens| - p, level, 0
  {
    if p < |tokens| && OperatorLevel(tokens[p].kind) == level then
      var right := ParseLevel(tokens, p + 1, level - 1);
      if right.result.NotImplemented? then right
      else ParseLoop(tokens, Binary(expr, tokens[p].kind.symbol, right.result.expr, tokens[p].line), right.next, level)
    else
      Progress(Parsed(expr), p)
  }

  /**
    * One turn of a level's loop on the operator `operator` at `p`: a right operand that reached
    * a `TODO()` ends the level there, and a parsed one is folded in.
    */
  lemma LoopTurn(tokens: seq<Token>, expr: Expression, p: nat, level: nat, operator: Token, right: ParseResult, to: nat)
    requires 1 <= level <= 4 && p < |tokens| && tokens[p].kind in LevelKinds(level) && operator == tokens[p]
    requires ParseLevel(tokens, p + 1, level - 1) == Progress(right, to)
    ensures operator.kind.Sym? && operator.kind.symbol.IsBinaryOp()
    ensures right.NotImplemented? ==> ParseLoop(tokens, expr, p, level) == Progress(right, to)
    ensures right.Parsed? ==>
              ParseLoop(tokens, expr, p, level) == ParseLoop(tokens, Binary(expr, operator.kind.symbol, right.expr, operator.line), to, level)
  {
    LevelKindsAreOperators(level, tokens[p].kind);
  }

  /** A level's loop ends where no operator of the level follows. */
  lemma LoopStops(tokens: seq<Token>, expr: Expression, p: nat, level: nat)
    requires 1 <= level <= 4 && p <= |tokens| && !(p < |tokens| && tokens[p].kind in LevelKinds(level))
    ensures ParseLoop(tokens, expr, p, level) == Progress(Parsed(expr), p)
  {
    LevelKindsAreOperators(level, if p < |tokens| then tokens[p].kind else EOF);
  }

  /**
    * The state of a level's loop: `expr` is a tree of the level that the tokens from `from`
    * spell up to `p`, and no operator of a tighter level follows it.
    */
  predicate Folding(tokens: seq<Token>, from: nat, expr: Expression, p: nat, level: nat) {
    && p <= |tokens| && 1 <= level <= 4
    && AtLevel(expr, level) && Spelled(tokens, from, expr) == Some(p) && EndsBefore(tokens, p, level - 1)
  }

  /** The first operand, a tree one level down, starts the loop. */
  lemma FoldBegins(tokens: seq<Token>, from: nat, left: ParseResult, mid: nat, level: nat)
    requires 1 <= level <= 4 && Produced(tokens, from, mid, left, level - 1) && left.Parsed?
    ensures Folding(tokens, from, left.expr, mid, level)
  {
  }

  /** Folding in a parsed right operand keeps the loop's state. */
  lemma FoldStep(tokens: seq<Token>, from: nat, expr: Expression, p: nat, level: nat, right: ParseResult, to: nat)
    requires Folding(tokens, from, expr, p, level) && p < |tokens| && OperatorLevel(tokens[p].kind) == level
    requires Produced(tokens, p + 1, to, right, level - 1) && right.Parsed?
    ensures Folding(tokens, from, Binary(expr, tokens[p].kind.symbol, right.expr, tokens[p].line), to, level)
  {
  }

  /** A right operand that reached a `TODO()` is what the level produced. */
  lemma FoldFails(tokens: seq<Token>, from: nat, expr: Expression, p: nat, level: nat, right: ParseResult, to: nat)
    requires Folding(tokens, from, expr, p, level) && p < |tokens|
    requires Produced(tokens, p + 1, to, right, level - 1) && right.NotImplemented?
    ensures Produced(tokens, from, to, right, level)
  {
  }

  /** Where no operator of the level follows, the folded tree is what the level produced. */
  lemma FoldEnds(tokens: seq<Token>, from: nat, expr: Expression, p: nat, level: nat)
    requires Folding(tokens, from, expr, p, level) && !(p < |tokens| && OperatorLevel(tokens[p].kind) == level)
    ensures Produced(tokens, from, p, Parsed(expr), level)
  {
  }

  lemma PrimaryProduces(tokens: seq<Token>, p: nat)
    requires p <= |tokens|
    ensures Produced(tokens, p, ParsePrimary(tokens, p).next, ParsePrimary(tokens, p).result, 0)
  {
  }

  lemma {:induction false} UnaryProduces(tokens: seq<Token>, from: nat)
    requires from <= |tokens|
    ensures Produced(tokens, from, ParseUnary(tokens, from).next, ParseUnary(tokens, from).result, 0)
    decreases |tokens| - from
  {
    if from < |tokens| && (tokens[from].kind == Sym(Not) || tokens[from].kind == Sym(Minus)) {
      UnaryProduces(tokens, from + 1);
    } else {
      PrimaryProduces(tokens, from);
    }
  }

  /**
    * Every parse means what `Produced` says: a tree of its level spelled by exactly the tokens
    * it consumed and followed by no operator it could still take, or a `TODO()` at the cursor.
    */
  lemma {:induction false} ParseLevelProduces(tokens: seq<Token>, from: nat, level: nat)
    requires from <= |tokens| && level <= 4
    ensures Produced(tokens, from, ParseLevel(tokens, from, level).next, ParseLevel(tokens, from, level).result, level)
    decreases |tokens| - from, level, 1
  {
    if level == 0 {
      UnaryProduces(tokens, from);
    } else {
      ParseLevelProduces(tokens, from, level - 1);
      var left := ParseLevel(tokens, from, level - 1);
      if left.result.Parsed? {
        FoldBegins(tokens, from, left.result, left.next, level);
        ParseLoopProduces(tokens, from, left.result.expr, left.next, level);
      }
    }
  }

  /** Every run of a level's loop from a `Folding` state ends as `Produced` says. */
  lemma {:induction false} ParseLoopProduces(tokens: seq<Token>, from: nat, expr: Expression, p: nat, level: nat)
    requires Folding(tokens, from, expr, p, level)
    ensures Produced(tokens, from, ParseLoop(tokens, expr, p, level).next, ParseLoop(tokens, expr, p, level).result, level)
    decreases |tokens| - p, level, 0
  {
    if p < |tokens| && OperatorLevel(tokens[p].kind) == level {
      ParseLevelProduces(tokens, p + 1, level - 1);
      var right := ParseLevel(tokens, p + 1, level - 1);
      if right.result.Parsed? {
        FoldStep(tokens, from, expr, p, level, right.result, right.next);
        ParseLoopProduces(tokens, from, Binary(expr, tokens[p].kind.symbol, right.result.expr, tokens[p].line), right.next, level);
      } else {
        FoldFails(tokens, from, expr, p, level, right.result, right.next);
      }
    } else {
      FoldEnds(tokens, from, expr, p, level);
    }
  }

  /**
    * As written, a string or number token is left where it is, so nothing after it is parsed
    * at any level: on the tokens of `1 + 2` the parse yields the literal `1` and the cursor
    * stays on it.
    */
  lemma {:induction false} LiteralStopsTheParse(tokens: seq<Token>, from: nat, level: nat)
    requires from < |tokens| && level <= 4
    requires tokens[from].kind.LoxNumber? || tokens[from].kind.LoxString?
    ensures ParseLevel(tokens, from, level) == Progress(Parsed(Literal(tokens[from].kind)), from)
  {
    if level > 0 {
      LiteralStopsTheParse(tokens, from, level - 1);
    }
  }

  lemma OtherThanKeywordLiterals(kind: TokenType)
    requires kind != KwLit(False) && kind != KwLit(True) && kind != KwLit(Nil)
    ensures !kind.KwLit?
  {
    if kind.KwLit? {
      match kind.literal
      case False =>
      case True =>
      case Nil =>
    }
  }

  /** The operators of a tree's binary nodes, left to right. */
  function BinaryOperators(e: Expression): seq<BinaryOp> {
    match e
    case Unary(_, operand, _) => BinaryOperators(operand)
    case Binary(left, op, right, _) => BinaryOperators(left) + [op] + BinaryOperators(right)
    case _ => []
  }

  /**
    * Precedence is layered: a tree of level k holds no binary operator looser than k, so an
    * equality never sits inside a comparison, a comparison never inside a term, and `+`/`-`
    * never inside a factor.
    */
  lemma {:induction false} OperatorsWithinLevel(e: Expression, level: nat)
    requires AtLevel(e, level)
    ensures forall k | 0 <= k < |BinaryOperators(e)| :: Precedence(BinaryOperators(e)[k]) <= level
  {
    match e
    case Literal(_) =>
    case Unary(_, operand, _) =>
      OperatorsWithinLevel(operand, 0);
    case Binary(left, op, right, _) =>
      OperatorsWithinLevel(left, Precedence(op));
      OperatorsWithinLevel(right, Precedence(op) - 1);
      var l, r := BinaryOperators(left), BinaryOperators(right);
      assert BinaryOperators(e) == l + [op] + r;
      forall k | 0 <= k < |BinaryOperators(e)| ensures Precedence(BinaryOperators(e)[k]) <= level {
        if k > |l| {
          assert BinaryOperators(e)[k] == r[k - |l| - 1];
        } else if k < |l| {
          assert BinaryOperators(e)[k] == l[k];
        }
      }
  }

  /**
    * Operators of one level fold to the left: the right operand of a binary node never has a
    * binary operator of the same or a looser level at its root, so `a - b - c` is `(a - b) - c`.
    */
  lemma FoldsLeft(e: Expression, level: nat)
    requires AtLevel(e, level) && e.Binary?
    ensures Precedence(e.op) <= level
    ensures AtLevel(e.left, Precedence(e.op))
    ensures e.right.Binary? ==> Precedence(e.right.op) < Precedence(e.op)
  {
  }

  /** The prefix operators a level-0 tree starts with. */
  function Prefixes(e: Expression): seq<UnaryOp> {
    if e.Unary? then [e.prefix] + Prefixes(e.operand) else []
  }

  /** What remains of a tree once its prefix operators are taken away. */
  function Unprefixed(e: Expression): Expression {
    if e.Unary? then Unprefixed(e.operand) else e
  }

  /**
    * `unary` is right-recursive: a level-0 tree is one `Unary` node per prefix operator around a
    * single literal, and the operators are the tokens before that literal, in written order.
    */
  lemma {:induction false} UnaryNests(tokens: seq<Token>, from: nat, e: Expression)
    requires AtLevel(e, 0) && Spelled(tokens, from, e).Some?
    ensures Unprefixed(e).Literal?
    ensures from + |Prefixes(e)| <= |tokens|
    ensures forall k | 0 <= k < |Prefixes(e)| :: tokens[from + k].kind == Sym(Prefixes(e)[k])
    ensures Spelled(tokens, from + |Prefixes(e)|, Unprefixed(e)) == Spelled(tokens, from, e)
    decreases e
  {
    if e.Unary? {
      UnaryNests(tokens, from + 1, e.operand);
      assert Prefixes(e) == [e.prefix] + Prefixes(e.operand);
      forall k | 0 <= k < |Prefixes(e)| ensures tokens[from + k].kind == Sym(Prefixes(e)[k]) {
        if k > 0 {
          assert Prefixes(e)[k] == Prefixes(e.operand)[k - 1];
        }
      }
    }
  }

  /** How a call of `advance()` ends: with its result, or with the call stack exhausted. */
  datatype AdvanceEnd = Advanced(t: Option<Token>) | StackOverflow

  /**
    * `advance()` as written: past the end it returns null; otherwise it calls itself with
    * nothing changed, before `previous()` is reached. `stack` is the number of nested calls the
    * runtime allows.
    */
  function AdvanceAsWritten(tokens: seq<Token>, current: nat, stack: nat): AdvanceEnd {
    if current >= |tokens| then Advanced(None)
    else if stack == 0 then StackOverflow
    else AdvanceAsWritten(tokens, current, stack - 1)
  }

  /** While a token is left, `advance()` as written never returns, however deep the stack. */
  lemma {:induction false} AdvanceNeverReturns(tokens: seq<Token>, current: nat, stack: nat)
    requires current < |tokens|
    ensures AdvanceAsWritten(tokens, current, stack) == StackOverflow
  {
    if stack > 0 {
      AdvanceNeverReturns(tokens, current, stack - 1);
    }
  }

  /** Parsing `true` needs `match` to advance past the `true` token, which as written overflows. */
  lemma AdvanceOverflowsOnTrue(stack: nat)
    ensures AdvanceAsWritten([Token(KwLit(True), "true", 1), Token(EOF, "", 1)], 0, stack) == StackOverflow
  {
    AdvanceNeverReturns([Token(KwLit(True), "true", 1), Token(EOF, "", 1)], 0, stack);
  }

  /**
    * Parsing `-1` needs `unary`'s `match` to advance past the `-` token, which as written
    * overflows; this input does not depend on how `true`, `false` and `nil` are classified.
    */
  lemma AdvanceOverflowsOnMinus(stack: nat)
    ensures AdvanceAsWritten([Token(Sym(Minus), "-", 1), Token(LoxNumber(1.0), "1", 1), Token(EOF, "", 1)], 0, stack)
              == StackOverflow
  {
    AdvanceNeverReturns([Token(Sym(Minus), "-", 1), Token(LoxNumber(1.0), "1", 1), Token(EOF, "", 1)], 0, stack);
  }

  class Parser {
    const tokens: seq<Token>
    var current: nat

    constructor (tokens: seq<Token>)
      ensures this.tokens == tokens && current == 0
    {
      this.tokens := tokens;
      current := 0;
    }

    /** `tokens.getOrNull(current)`: nothing once the cursor is at or past the end. */
    function Peek(): (t: Option<Token>)
      reads this
      ensures t.Some? <==> current < |tokens|
      ensures t.Some? ==> t.value == tokens[current]
    {
      if current < |tokens| then Some(tokens[current]) else None
    }

    /** `previous()`: the token just consumed. */
    function Previous(): (t: Token)
      reads this
      requires 1 <= current <= |tokens|
      ensures t == tokens[current - 1]
    {
      tokens[current - 1]
    }

    /** `check(kind)`: false at the end of the tokens. */
    function Check(kind: TokenType): (b: bool)
      reads this
      ensures b <==> current < |tokens| && tokens[current].kind == kind
    {
      Peek().Some? && Peek().value.kind == kind
    }

    /**
      * The cursor step `advance()` stands for: move on by one token unless at the end, and return
      * the token passed.
      */
    method Advance() returns (t: Option<Token>)
      modifies this
      ensures old(current) < |tokens| ==> current == old(current) + 1 && t == Some(tokens[old(current)])
      ensures old(current) >= |tokens| ==> current == old(current) && t == None
    {
      if current >= |tokens| {
        return None;
      }
      current := current + 1;
      return Some(tokens[current - 1]);
    }

    /** `match(kinds)`: consume the next token when its kind is listed; the kinds are tried in order. */
    method Match(kinds: seq<TokenType>) returns (matched: bool)
      modifies this
      ensures matched <==> old(current) < |tokens| && tokens[old(current)].kind in kinds
      ensures current == old(current) + (if matched then 1 else 0)
    {
      for k := 0 to |kinds|
        invariant current == old(current)
        invariant forall j | 0 <= j < k :: !Check(kinds[j])
      {
        if Check(kinds[k]) {
          var _ := Advance();
          return true;
        }
      }
      return false;
    }

    /**
      * `expression()`: the parse of `equality()`, which is a tree of the loosest level spelled
      * by exactly the tokens consumed, or a `TODO()` where `primary()` found nothing to take.
      */
    method Expr() returns (r: ParseResult)
      requires current <= |tokens|
      modifies this
      ensures Progress(r, current) == ParseLevel(tokens, old(current), 4)
      ensures Produced(tokens, old(current), current, r, 4)
      decreases |tokens| - current, 6
    {
      ParseLevelProduces(tokens, current, 4);
      r := Equality();
    }

    /** `equality()`: operands are comparisons, folded to the left while `==` or `!=` follows. */
    method Equality() returns (r: ParseResult)
      requires current <= |tokens|
      modifies this
      ensures Progress(r, current) == ParseLevel(tokens, old(current), 4)
      decreases |tokens| - current, 5
    {
      ghost var from := current;
      r := Comparison();
      if r.NotImplemented? {
        return;
      }
      var expr := r.expr;
      ghost var mid := current;
      var matched := Match(LevelKinds(4));
      while matched
        invariant from <= mid <= |tokens| && current == mid + (if matched then 1 else 0)
        invariant matched <==> mid < |tokens| && tokens[mid].kind in LevelKinds(4)
        invariant ParseLoop(tokens, expr, mid, 4) == ParseLevel(tokens, from, 4)
        decreases |tokens| - current + (if matched then 1 else 0)
      {
        var operator := Previous();
        var right := Comparison();
        LoopTurn(tokens, expr, mid, 4, operator, right, current);
        if right.NotImplemented? {
          return right;
        }
        expr := Expression.Binary(expr, operator.kind.symbol, right.expr, operator.line);
        mid := current;
        matched := Match(LevelKinds(4));
      }
      LoopStops(tokens, expr, mid, 4);
      return Parsed(expr);
    }

    /** `comparison()`: operands are terms, folded to the left while a comparison operator follows. */
    method Comparison() returns (r: ParseResult)
      requires current <= |tokens|
      modifies this
      ensures Progress(r, current) == ParseLevel(tokens, old(current), 3)
      decreases |tokens| - current, 4
    {
      ghost var from := current;
      r := Term();
      if r.NotImplemented? {
        return;
      }
      var expr := r.expr;
      ghost var mid := current;
      var matched := Match(LevelKinds(3));
      while matched
        invariant from <= mid <= |tokens| && current == mid + (if matched then 1 else 0)
        invariant matched <==> mid < |tokens| && tokens[mid].kind in LevelKinds(3)
        invariant ParseLoop(tokens, expr, mid, 3) == ParseLevel(tokens, from, 3)
        decreases |tokens| - current + (if matched then 1 else 0)
      {
        var operator := Previous();
        var right := Term();
        LoopTurn(tokens, expr, mid, 3, operator, right, current);
        if right.NotImplemented? {
          return right;
        }
        expr := Expression.Binary(expr, operator.kind.symbol, right.expr, operator.line);
        mid := current;
        matched := Match(LevelKinds(3));
      }
      LoopStops(tokens, expr, mid, 3);
      return Parsed(expr);
    }

    /** `term()`: operands are factors, folded to the left while `-` or `+` follows. */
    method Term() returns (r: ParseResult)
      requires current <= |tokens|
      modifies this
      ensures Progress(r, current) == ParseLevel(tokens, old(current), 2)
      decreases |tokens| - current, 3
    {
      ghost var from := current;
      r := Factor();
      if r.NotImplemented? {
        return;
      }
      var expr := r.expr;
      ghost var mid := current;
      var matched := Match(LevelKinds(2));
      while matched
        invariant from <= mid <= |tokens| && current == mid + (if matched then 1 else 0)
        invariant matched <==> mid < |tokens| && tokens[mid].kind in LevelKinds(2)
        invariant ParseLoop(tokens, expr, mid, 2) == ParseLevel(tokens, from, 2)
        decreases |tokens| - current + (if matched then 1 else 0)
      {
        var operator := Previous();
        var right := Factor();
        LoopTurn(tokens, expr, mid, 2, operator, right, current);
        if right.NotImplemented? {
          return right;
        }
        expr := Expression.Binary(expr, operator.kind.symbol, right.expr, operator.line);
        mid := current;
        matched := Match(LevelKinds(2));
      }
      LoopStops(tokens, expr, mid, 2);
      return Parsed(expr);
    }

    /** `factor()`: operands are unarys, folded to the left while `/` or `*` follows. */
    method Factor() returns (r: ParseResult)
      requires current <= |tokens|
      modifies this
      ensures Progress(r, current) == ParseLevel(tokens, old(current), 1)
      decreases |tokens| - current, 2
    {
      ghost var from := current;
      r := Unary();
      if r.NotImplemented? {
        return;
      }
      var expr := r.expr;
      ghost var mid := current;
      var matched := Match(LevelKinds(1));
      while matched
        invariant from <= mid <= |tokens| && current == mid + (if matched then 1 else 0)
        invariant matched <==> mid < |tokens| && tokens[mid].kind in LevelKinds(1)
        invariant ParseLoop(tokens, expr, mid, 1) == ParseLevel(tokens, from, 1)
        decreases |tokens| - current + (if matched then 1 else 0)
      {
        var operator := Previous();
        var right := Unary();
        LoopTurn(tokens, expr, mid, 1, operator, right, current);
        if right.NotImplemented? {
          return right;
        }
        expr := Expression.Binary(expr, operator.kind.symbol, right.expr, operator.line);
        mid := current;
        matched := Match(LevelKinds(1));
      }
      LoopStops(tokens, expr, mid, 1);
      return Parsed(expr);
    }

    /** `unary()`: a run of `!` and `-` prefixes nests one `Unary` node per operator. */
    method Unary() returns (r: ParseResult)
      requires current <= |tokens|
      modifies this
      ensures Progress(r, current) == ParseLevel(tokens, old(current), 0)
      ensures Produced(tokens, old(current), current, r, 0)
      decreases |tokens| - current, 1
    {
      UnaryProduces(tokens, current);
      var matched := Match([Sym(Not), Sym(Minus)]);
      if matched {
        var operator := Previous();
        var right := Unary();
        if right.NotImplemented? {
          return right;
        }
        return Parsed(Expression.Unary(operator.kind.symbol, right.expr, operator.line));
      }
      r := Primary();
    }

    /**
      * `primary()`: `false`, `true` and `nil` are consumed and become literals; a string or
      * number token becomes a literal without being consumed; anything else, or no token at
      * all, reaches a `TODO()` and leaves the cursor where it was.
      */
    method Primary() returns (r: ParseResult)
      requires current <= |tokens|
      modifies this
      ensures Progress(r, current) == ParsePrimary(tokens, old(current))
      ensures r.NotImplemented? <==> PrimaryFails(tokens, old(current))
      ensures r.NotImplemented? ==> current == old(current)
      ensures r.Parsed? ==> r.expr.Literal? && old(current) < |tokens| && r.expr.lit == tokens[old(current)].kind
      ensures r.Parsed? && r.expr.lit.KwLit? <==> current == old(current) + 1
      decreases |tokens| - current, 0
    {
      var matched := Match([KwLit(False)]);
      if matched {
        return Parsed(Expression.Literal(KwLit(False)));
      }
      matched := Match([KwLit(True)]);
      if matched {
        return Parsed(Expression.Literal(KwLit(True)));
      }
      matched := Match([KwLit(Nil)]);
      if matched {
        return Parsed(Expression.Literal(KwLit(Nil)));
      }
      var next := Peek();
      if next.None? {
        return NotImplemented(current);
      }
      if next.value.kind.IsLiteral() {
        return Parsed(Expression.Literal(next.value.kind));
      }
      return NotImplemented(current);
    }
  }
}
