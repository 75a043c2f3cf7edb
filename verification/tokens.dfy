/**
  * The token model shared by the scanner and the parser (src/main/kotlin/Token.kt).
  * A token kind is a punctuation symbol, a keyword, one of the three keyword literals
  * (`false`, `nil`, `true`), a string or number literal carrying its value, an identifier
  * carrying its name, or the synthetic end-of-input marker.
  */
module Tokens {
  import opened Util

  datatype Symbol =
    | LeftParenthesis | RightParenthesis | LeftBrace | RightBrace | Comma | Dot
    | Minus | Plus | Semicolon | Slash | Asterisk
    | Not | NotEqual | Equals | DoubleEquals
    | GreaterThan | GreaterThanOrEqual | LessThan | LessThanOrEqual
  {
    /** The symbol's source text. */
    function Text(): string {
      match this
      case LeftParenthesis => "("
      case RightParenthesis => ")"
      case LeftBrace => "{"
      case RightBrace => "}"
      case Comma => ","
      case Dot => "."
      case Minus => "-"
      case Plus => "+"
      case Semicolon => ";"
      case Slash => "/"
      case Asterisk => "*"
      case Not => "!"
      case NotEqual => "!="
      case Equals => "="
      case DoubleEquals => "=="
      case GreaterThan => ">"
      case GreaterThanOrEqual => ">="
      case LessThan => "<"
      case LessThanOrEqual => "<="
    }

    /** The symbols that can stand between two operands. */
    predicate IsBinaryOp() {
      this in {Minus, Plus, Slash, Asterisk, NotEqual, DoubleEquals,
               GreaterThan, GreaterThanOrEqual, LessThan, LessThanOrEqual}
    }

    /** The symbols that can prefix one operand. */
    predicate IsUnaryOp() {
      this == Not || this == Minus
    }
  }

  type BinaryOp = s: Symbol | s.IsBinaryOp() witness Minus

  type UnaryOp = s: Symbol | s.IsUnaryOp() witness Not

  datatype Keyword =
    | And | Class | Else | Fun | For | If | Or | Print | Return | Super | This | Var | While
  {
    function Text(): string {
      match this
      case And => "and"
      case Class => "class"
      case Else => "else"
      case Fun => "fun"
      case For => "for"
      case If => "if"
      case Or => "or"
      case Print => "print"
      case Return => "return"
      case Super => "super"
      case This => "this"
      case Var => "var"
      case While => "while"
    }
  }

  datatype KeywordLiteral = False | Nil | True
  {
    function Text(): string {
      match this
      case False => "false"
      case Nil => "nil"
      case True => "true"
    }
  }

  datatype TokenType =
    | Sym(symbol: Symbol)
    | Kw(keyword: Keyword)
    | KwLit(literal: KeywordLiteral)
    | LoxString(value: string)
    | LoxNumber(number: real)
    | Identifier(name: string)
    | EOF
  {
    /** Literal kinds: the ones a `Literal` expression and the evaluator carry as values. */
    predicate IsLiteral() {
      KwLit? || LoxString? || LoxNumber?
    }

    /**
      * The kind's `asString`: a symbol's or keyword's text, an identifier's name and a string
      * literal's value without quotes. How a number is shown is the parameter `fmt`.
      */
    function Text(fmt: real -> string): string {
      match this
      case Sym(s) => s.Text()
      case Kw(k) => k.Text()
      case KwLit(l) => l.Text()
      case LoxString(v) => v
      case LoxNumber(x) => fmt(x)
      case Identifier(n) => n
      case EOF => ""
    }
  }

  /** The literal kinds, which are the evaluator's values. */
  type Literal = t: TokenType | t.IsLiteral() witness KwLit(Nil)

  datatype Token = Token(kind: TokenType, lexeme: string, line: nat)

  /**
    * How the scanner classifies an identifier-shaped text: the keyword table is searched
    * first, then the keyword-literal table, and otherwise the text is an identifier.
    */
  function KeywordOrIdentifier(text: string): (t: TokenType)
    ensures t.Kw? || t.KwLit? || t == Identifier(text)
    ensures t.Kw? ==> t.keyword.Text() == text
    ensures t.KwLit? ==> t.literal.Text() == text
    ensures t.Identifier? <==>
              (forall k: Keyword :: k.Text() != text) && (forall l: KeywordLiteral :: l.Text() != text)
  {
    if text == "and" then Kw(And)
    else if text == "class" then Kw(Class)
    else if text == "else" then Kw(Else)
    else if text == "fun" then Kw(Fun)
    else if text == "for" then Kw(For)
    else if text == "if" then Kw(If)
    else if text == "or" then Kw(Or)
    else if text == "print" then Kw(Print)
    else if text == "return" then Kw(Return)
    else if text == "super" then Kw(Super)
    else if text == "this" then Kw(This)
    else if text == "var" then Kw(Var)
    else if text == "while" then Kw(While)
    else if text == "false" then KwLit(False)
    else if text == "nil" then KwLit(Nil)
    else if text == "true" then KwLit(True)
    else Identifier(text)
  }

  /** Every reserved word scans back to its own keyword: the keyword tables are unambiguous. */
  lemma ReservedWordsRoundTrip(k: Keyword, l: KeywordLiteral)
    ensures KeywordOrIdentifier(k.Text()) == Kw(k)
    ensures KeywordOrIdentifier(l.Text()) == KwLit(l)
  {
  }
}
