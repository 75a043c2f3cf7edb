/**
  * The scanner object of src/main/kotlin/Scanner.kt: a cursor over the source text that
  * appends tokens and errors to its own lists. Each method is proved to do exactly what the
  * functions of module Lexing describe, so everything proved there holds for the object.
  */
module Scanning {
  import opened Util
  import opened Tokens
  import opened Lexing

  class Scanner {
    const source: string
    var tokens: seq<Token>
    var start: nat
    var current: nat
    var line: nat
    var errors: seq<ScanError>

    constructor (source: string)
      ensures this.source == source
      ensures tokens == [] && errors == [] && start == 0 && current == 0 && line == 1
    {
      this.source := source;
      tokens := [];
      errors := [];
      start := 0;
      current := 0;
      line := 1;
    }

    /** `getOrNull(current)`. */
    function Peek(): (c: Option<char>)
      reads this
      ensures c.Some? <==> current < |source|
      ensures c.Some? ==> c.value == source[current]
    {
      if current < |source| then Some(source[current]) else None
    }

    /** `getOrNull(current + 1)`. */
    function PeekNext(): (c: Option<char>)
      reads this
      ensures c.Some? <==> current + 1 < |source|
      ensures c.Some? ==> c.value == source[current + 1]
    {
      if current + 1 < |source| then Some(source[current + 1]) else None
    }

    /** `getOrNull(current++)`: the cursor moves on even past the end of the text. */
    method Advance() returns (c: Option<char>)
      modifies this
      ensures c == old(Peek())
      ensures current == old(current) + 1
      ensures tokens == old(tokens) && errors == old(errors) && start == old(start) && line == old(line)
    {
      c := Peek();
      current := current + 1;
    }

    /** Consumes the next character only when it is `expected`. */
    method Match(expected: char) returns (matched: bool)
      modifies this
      ensures matched <==> old(Peek()) == Some(expected)
      ensures current == old(current) + (if matched then 1 else 0)
      ensures tokens == old(tokens) && errors == old(errors) && start == old(start) && line == old(line)
    {
      if Peek() != Some(expected) {
        return false;
      }
      var _ := Advance();
      return true;
    }

    method RecordError(message: string)
      modifies this
      ensures errors == old(errors) + [ScanError(line, message)]
      ensures tokens == old(tokens) && current == old(current) && start == old(start) && line == old(line)
    {
      errors := errors + [ScanError(line, message)];
    }

    /** The loop of `string()`: up to the closing quote or the end, counting line feeds. */
    method SkipStringBody()
      requires current <= |source|
      modifies this
      ensures current == Find(source, old(current), '"')
      ensures line == old(line) + Newlines(source[old(current)..current])
      ensures tokens == old(tokens) && errors == old(errors) && start == old(start)
    {
      ghost var from := current;
      while Peek().Some? && Peek() != Some('"')
        invariant from <= current <= |source|
        invariant Find(source, current, '"') == Find(source, from, '"')
        invariant line == old(line) + Newlines(source[from..current])
        invariant tokens == old(tokens) && errors == old(errors) && start == old(start)
        decreases |source| - current
      {
        NewlinesExtend(source, from, current);
        if Peek() == Some('\n') {
          line := line + 1;
        }
        var _ := Advance();
      }
    }

    /** `string()`, entered just after the opening quote. */
    method StringLiteral() returns (kind: Option<TokenType>)
      requires start < current == start + 1 <= |source| && source[start] == '"'
      modifies this
      ensures var r := StringStep(source, old(start), old(line));
        && current == r.next && line == r.line && errors == old(errors) + r.errors
        && (if r.token.Some? then kind == Some(r.token.value.kind) else kind.None?)
      ensures tokens == old(tokens) && start == old(start)
    {
      SkipStringBody();
      if Peek().None? {
        RecordError("Unterminated string.");
        return None;
      }
      var _ := Advance();
      return Some(LoxString(source[start + 1..current - 1]));
    }

    /** `while (peek() in '0'..'9') advance()`. */
    method SkipDigits()
      requires current <= |source|
      modifies this
      ensures current == DigitsEnd(source, old(current))
      ensures tokens == old(tokens) && errors == old(errors) && start == old(start) && line == old(line)
    {
      ghost var from := current;
      while Peek().Some? && IsDigit(Peek().value)
        invariant from <= current <= |source|
        invariant DigitsEnd(source, current) == DigitsEnd(source, from)
        invariant tokens == old(tokens) && errors == old(errors) && start == old(start) && line == old(line)
        decreases |source| - current
      {
        var _ := Advance();
      }
    }

    /** The digits of `number()`, then `.` and more digits only when a digit follows the `.`. */
    method SkipNumber()
      requires current <= |source|
      modifies this
      ensures current == NumberEnd(source, old(current))
      ensures tokens == old(tokens) && errors == old(errors) && start == old(start) && line == old(line)
    {
      SkipDigits();
      if Peek() == Some('.') && PeekNext().Some? && IsDigit(PeekNext().value) {
        var _ := Advance();
        SkipDigits();
      }
    }

    /** `number()`, entered just after the first digit. */
    method NumberLiteral() returns (kind: Option<TokenType>)
      requires start < current == start + 1 <= |source| && IsDigit(source[start])
      modifies this
      ensures var r := NumberStep(source, old(start), old(line));
        && current == r.next && line == r.line && errors == old(errors) + r.errors
        && (if r.token.Some? then kind == Some(r.token.value.kind) else kind.None?)
      ensures tokens == old(tokens) && start == old(start)
    {
      SkipNumber();
      var raw := source[start..current];
      match ParseDecimal(raw)
      case None =>
        RecordError("Invalid numeric literal " + raw);
        return None;
      case Some(v) =>
        return Some(LoxNumber(v));
    }

    /** `identifier()`, entered just after the first character. */
    method IdentifierOrKeyword() returns (kind: TokenType)
      requires start < current == start + 1 <= |source|
      modifies this
      ensures start == old(start) && start < current <= |source|
      ensures current == IdentifierEnd(source, old(current))
      ensures kind == KeywordOrIdentifier(source[start..current])
      ensures tokens == old(tokens) && errors == old(errors) && start == old(start) && line == old(line)
    {
      ghost var e := IdentifierEnd(source, current);
      while Peek().Some? && IsIdentifierChar(Peek().value)
        invariant start < current <= e
        invariant IdentifierEnd(source, current) == e
        invariant tokens == old(tokens) && errors == old(errors) && start == old(start) && line == old(line)
        decreases |source| - current
      {
        var _ := Advance();
      }
      return KeywordOrIdentifier(source[start..current]);
    }

    /** The `tailrec` function `blockComment(nesting)`, entered just after an opening `/` `*`. */
    method BlockComment(nesting: int)
      requires current <= |source|
      modifies this
      ensures var b := Lexing.BlockComment(source, old(current), nesting, old(line));
        && current == b.next && line == b.line
        && errors == old(errors) + (match b.unterminatedAt
                                    case None => []
                                    case Some(at) => [ScanError(at, "Unterminated block comment.")])
      ensures tokens == old(tokens) && start == old(start)
      decreases |source| - current
    {
      if nesting < 0 {
        return;
      }
      var startLine := line;
      ghost var target := CommentBody(source, current, nesting, startLine, line);
      while Peek().Some?
        invariant current <= |source|
        invariant CommentBody(source, current, nesting, startLine, line) == target
        invariant tokens == old(tokens) && errors == old(errors) && start == old(start)
        decreases |source| - current
      {
        var c := Advance();
        if c == Some('\n') {
          line := line + 1;
        } else if c == Some('*') {
          var closing := Match('/');
          if closing {
            BlockComment(nesting - 1);
            return;
          }
        } else if c == Some('/') {
          var opening := Match('*');
          if opening {
            BlockComment(nesting + 1);
            return;
          }
        }
      }
      errors := errors + [ScanError(startLine, "Unterminated block comment.")];
    }

    /** Adds the token spanning `start..current` at the current line. */
    method AddToken(kind: TokenType)
      requires start <= current <= |source|
      modifies this
      ensures start == old(start) && current == old(current)
      ensures tokens == old(tokens) + [Token(kind, source[start..current], line)]
      ensures errors == old(errors) && current == old(current) && start == old(start) && line == old(line)
    {
      tokens := tokens + [Token(kind, source[start..current], line)];
    }

    /** `scanToken(char)`: the character at `start` has just been consumed. */
    method ScanToken(c: char)
      requires start < current == start + 1 <= |source| && c == source[start]
      modifies this
      ensures var r := Step(source, old(start), old(line));
        && current == r.next && line == r.line
        && tokens == old(tokens) + OptionToSeq(r.token)
        && errors == old(errors) + r.errors
      ensures start == old(start)
    {
      ghost var r := Step(source, start, line);
      if SingleCharSymbol(c).Some? {
        AddToken(Sym(SingleCharSymbol(c).value));
      } else if c in "!=<>" {
        var twoChar := Match('=');
        AddToken(Sym(OperatorKind(c, twoChar)));
      } else if IsIdentifierChar(c) {
        var kind := IdentifierOrKeyword();
        AddToken(kind);
      } else if IsDigit(c) {
        var kind := NumberLiteral();
        if kind.Some? {
          AddToken(kind.value);
        }
      } else if c == '"' {
        var kind := StringLiteral();
        if kind.Some? {
          AddToken(kind.value);
        }
      } else if c == '/' {
        ScanSlash();
      } else if c == ' ' || c == '\r' || c == '\t' {
      } else if c == '\n' {
        line := line + 1;
      } else {
        RecordError("Unexpected character.");
      }
    }

    /** The loop of a line comment: up to the next line feed, which is left for `scanToken`. */
    method SkipLine()
      requires current <= |source|
      modifies this
      ensures current == Find(source, old(current), '\n')
      ensures tokens == old(tokens) && errors == old(errors) && start == old(start) && line == old(line)
    {
      ghost var from := current;
      while Peek().Some? && Peek() != Some('\n')
        invariant from <= current <= |source|
        invariant Find(source, current, '\n') == Find(source, from, '\n')
        invariant tokens == old(tokens) && errors == old(errors) && start == old(start) && line == old(line)
        decreases |source| - current
      {
        var _ := Advance();
      }
    }

    /** The `/` branch of `scanToken`: a line comment, a block comment or the `Slash` token. */
    method ScanSlash()
      requires start < current == start + 1 <= |source| && source[start] == '/'
      modifies this
      ensures var r := SlashStep(source, old(start), old(line));
        && current == r.next && line == r.line
        && tokens == old(tokens) + OptionToSeq(r.token)
        && errors == old(errors) + r.errors
      ensures start == old(start)
    {
      var lineComment := Match('/');
      if lineComment {
        SkipLine();
        return;
      }
      var blockComment := Match('*');
      if blockComment {
        BlockComment(0);
        return;
      }
      AddToken(Sym(Slash));
    }

    /**
      * `scanTokens()`: the tokens and errors of the whole text, with the end-of-input token last.
      * The object is meant to be used once, so it starts from its initial state.
      */
    method ScanTokens() returns (result: ScanResult)
      requires tokens == [] && errors == [] && start == 0 && current == 0 && line == 1
      modifies this
      ensures result == Scan(source)
    {
      var next := Advance();
      assert Join(ScanResult([], []), Scan(source)) == Scan(source);
      while next.Some?
        invariant start <= |source| && current == start + 1
        invariant next.Some? <==> start < |source|
        invariant next.Some? ==> next.value == source[start]
        invariant Join(ScanResult(tokens, errors), ScanFrom(source, start, line)) == Scan(source)
        decreases |source| - start
      {
        ghost var before := ScanResult(tokens, errors);
        ghost var r := Step(source, start, line);
        ghost var rest := ScanFrom(source, r.next, r.line);
        assert ScanFrom(source, start, line) == Join(StepOutput(r), rest);
        ScanToken(next.value);
        assert ScanResult(tokens, errors) == Join(before, StepOutput(r));
        JoinAssociative(before, StepOutput(r), rest);
        start := current;
        next := Advance();
      }
      tokens := tokens + [Token(EOF, "", line)];
      return ScanResult(tokens, errors);
    }
  }
}
