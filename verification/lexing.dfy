/**
  * The scanner's behaviour as functions over the source text (src/main/kotlin/Scanner.kt).
  * `Step` is what one call of `scanToken` does when the cursor stands just after the character
  * at `i`; `ScanFrom` repeats it to the end of the input and appends the end-of-input token.
  * The class in module Scanning is proved to compute exactly these functions.
  */
module Lexing {
  import opened Util
  import opened Tokens

  datatype ScanError = ScanError(line: nat, message: string)

  /** A scan error as the runner prints it. */
  function Render(e: ScanError): string {
    "[line " + NatToString(e.line) + "] Error: " + e.message
  }

  /**
    * The printed error can be read back: after `[line ` comes a run of digits whose value is
    * the error's line, closed by `]`, then the message.
    */
  lemma RenderReadsBack(e: ScanError)
    ensures var r := Render(e); var k := |NatToString(e.line)|;
      && |r| >= 6 + k && r[..6] == "[line "
      && AllDigits(r[6..6 + k]) && DigitsValue(r[6..6 + k]) == e.line
      && r[6 + k..] == "] Error: " + e.message
  {
    var d := NatToString(e.line);
    var r := Render(e);
    assert r == "[line " + (d + ("] Error: " + e.message));
    assert r[6..6 + |d|] == d;
    NatToStringRoundTrip(e.line);
  }

  datatype StepResult = StepResult(next: nat, line: nat, token: Option<Token>, errors: seq<ScanError>)

  datatype ScanResult = ScanResult(tokens: seq<Token>, errors: seq<ScanError>)

  /** Characters that start and continue an identifier: the ASCII range 'A'..'z' (which takes in `[`, `\`, `]`, `^`, `_` and the backtick) and `_`. */
  predicate IsIdentifierChar(c: char) {
    'A' <= c <= 'z' || c == '_'
  }

  /** Number of line feeds in a text. */
  function Newlines(s: string): nat {
    if s == [] then 0 else Newlines(s[..|s| - 1]) + (if s[|s| - 1] == '\n' then 1 else 0)
  }

  lemma {:induction false} NewlinesAppend(a: string, b: string)
    ensures Newlines(a + b) == Newlines(a) + Newlines(b)
    decreases |b|
  {
    if b == [] {
      assert a + b == a;
    } else {
      assert (a + b)[..|a + b| - 1] == a + b[..|b| - 1];
      NewlinesAppend(a, b[..|b| - 1]);
    }
  }

  lemma {:induction false} NoNewlines(s: string)
    requires forall k | 0 <= k < |s| :: s[k] != '\n'
    ensures Newlines(s) == 0
  {
    if s != [] {
      NoNewlines(s[..|s| - 1]);
    }
  }

  // ---------------------------------------------------------------------------------------
  // The inner loops of `number`, `identifier`, `string` and line comments: each returns the
  // position where its loop stops.

  function DigitsEnd(s: string, i: nat): (j: nat)
    requires i <= |s|
    ensures i <= j <= |s|
    ensures forall k | i <= k < j :: IsDigit(s[k])
    ensures j == |s| || !IsDigit(s[j])
    decreases |s| - i
  {
    if i < |s| && IsDigit(s[i]) then DigitsEnd(s, i + 1) else i
  }

  /** `number`: digits, then `.` and more digits only when a digit follows the `.`. */
  function NumberEnd(s: string, i: nat): (j: nat)
    requires i <= |s|
    ensures i <= j <= |s|
  {
    var d := DigitsEnd(s, i);
    if d + 1 < |s| && s[d] == '.' && IsDigit(s[d + 1]) then DigitsEnd(s, d + 1) else d
  }

  function IdentifierEnd(s: string, i: nat): (j: nat)
    requires i <= |s|
    ensures i <= j <= |s|
    ensures forall k | i <= k < j :: IsIdentifierChar(s[k])
    ensures j == |s| || !IsIdentifierChar(s[j])
    decreases |s| - i
  {
    if i < |s| && IsIdentifierChar(s[i]) then IdentifierEnd(s, i + 1) else i
  }

  /** First position at or after `i` holding `c`, or the end of the text. */
  function Find(s: string, i: nat, c: char): (j: nat)
    requires i <= |s|
    ensures i <= j <= |s|
    ensures forall k | i <= k < j :: s[k] != c
    ensures j == |s| || s[j] == c
    decreases |s| - i
  {
    if i == |s| || s[i] == c then i else Find(s, i + 1, c)
  }

  // ---------------------------------------------------------------------------------------
  // Numeric literals: the decimal reading of a lexeme, standing for `toDoubleOrNull`.

  /** Digits, optionally followed by `.` and at least one digit. */
  predicate IsNumberLexeme(t: string) {
    || (|t| > 0 && AllDigits(t))
    || (exists p | 0 < p < |t| - 1 :: t[p] == '.' && AllDigits(t[..p]) && AllDigits(t[p + 1..]))
  }

  /** The exact decimal value of a number lexeme; `None` for any other text. */
  function ParseDecimal(t: string): (r: Option<real>)
    ensures r.Some? <==> IsNumberLexeme(t)
  {
    var p := Find(t, 0, '.');
    if p == |t| then
      if |t| > 0 && AllDigits(t) then Some(DigitsValue(t) as real) else None
    else if 0 < p < |t| - 1 && AllDigits(t[..p]) && AllDigits(t[p + 1..]) then
      Some(DigitsValue(t[..p]) as real + DigitsValue(t[p + 1..]) as real / Pow10(|t| - p - 1) as real)
    else
      None
  }

  // ---------------------------------------------------------------------------------------
  // Block comments.

  datatype CommentEnd = CommentEnd(next: nat, line: nat, unterminatedAt: Option<nat>)

  /**
    * `blockComment(nesting)` entered with the cursor at `i`: a negative nesting ends the comment
    * at once; otherwise the body is scanned with the current line remembered as `startLine`.
    */
  function BlockComment(s: string, i: nat, nesting: int, line: nat): (r: CommentEnd)
    requires i <= |s|
    ensures i <= r.next <= |s| && r.line >= line
    decreases |s| - i, 1
  {
    if nesting < 0 then CommentEnd(i, line, None) else CommentBody(s, i, nesting, line, line)
  }

  /** The loop of `blockComment`: `*` `/` ends one level, `/` `*` opens one, a line feed counts. */
  function CommentBody(s: string, i: nat, nesting: int, startLine: nat, line: nat): (r: CommentEnd)
    requires i <= |s|
    ensures i <= r.next <= |s| && r.line >= line
    decreases |s| - i, 0
  {
    if i == |s| then
      CommentEnd(i, line, Some(startLine))
    else if s[i] == '\n' then
      CommentBody(s, i + 1, nesting, startLine, line + 1)
    else if s[i] == '*' && i + 1 < |s| && s[i + 1] == '/' then
      BlockComment(s, i + 2, nesting - 1, line)
    else if s[i] == '/' && i + 1 < |s| && s[i + 1] == '*' then
      BlockComment(s, i + 2, nesting + 1, line)
    else
      CommentBody(s, i + 1, nesting, startLine, line)
  }

  /** A block comment counts every line feed it passes. */
  lemma {:induction false} BlockCommentLines(s: string, i: nat, nesting: int, line: nat)
    requires i <= |s|
    ensures var r := BlockComment(s, i, nesting, line); r.line == line + Newlines(s[i..r.next])
    decreases |s| - i, 1
  {
    if nesting >= 0 {
      CommentBodyLines(s, i, nesting, line, line);
    } else {
      assert s[i..i] == [];
    }
  }

  lemma {:induction false} CommentBodyLines(s: string, i: nat, nesting: int, startLine: nat, line: nat)
    requires i <= |s|
    ensures var r := CommentBody(s, i, nesting, startLine, line); r.line == line + Newlines(s[i..r.next])
    decreases |s| - i, 0
  {
    if i == |s| {
      assert s[i..i] == [];
    } else {
      var r := CommentBody(s, i, nesting, startLine, line);
      NewlinesAfter(s, i, r.next);
      if s[i] == '\n' {
        CommentBodyLines(s, i + 1, nesting, startLine, line + 1);
      } else if s[i] == '*' && i + 1 < |s| && s[i + 1] == '/' {
        BlockCommentLines(s, i + 2, nesting - 1, line);
        NewlinesAfter(s, i + 1, r.next);
      } else if s[i] == '/' && i + 1 < |s| && s[i + 1] == '*' {
        BlockCommentLines(s, i + 2, nesting + 1, line);
        NewlinesAfter(s, i + 1, r.next);
      } else {
        CommentBodyLines(s, i + 1, nesting, startLine, line);
      }
    }
  }

  /**
    * A block comment is reported unterminated only when it runs to the end of the input, and
    * then at a line between the one it started on and the last one it reached; otherwise it
    * ends just after a `*` `/`.
    */
  lemma {:induction false} BlockCommentEnds(s: string, i: nat, nesting: int, line: nat)
    requires i <= |s|
    ensures var r := BlockComment(s, i, nesting, line);
      && (r.unterminatedAt.Some? ==> r.next == |s| && line <= r.unterminatedAt.value <= r.line)
      && (r.unterminatedAt.None? && nesting >= 0 ==> i + 2 <= r.next && s[r.next - 2..r.next] == "*/")
    decreases |s| - i, 1
  {
    if nesting >= 0 {
      CommentBodyEnds(s, i, nesting, line, line);
    }
  }

  lemma {:induction false} CommentBodyEnds(s: string, i: nat, nesting: int, startLine: nat, line: nat)
    requires i <= |s| && startLine <= line
    ensures var r := CommentBody(s, i, nesting, startLine, line);
      && (r.unterminatedAt.Some? ==> r.next == |s| && startLine <= r.unterminatedAt.value <= r.line)
      && (r.unterminatedAt.None? && nesting >= 0 ==> i + 2 <= r.next && s[r.next - 2..r.next] == "*/")
    decreases |s| - i, 0
  {
    if i == |s| {
    } else if s[i] == '\n' {
      CommentBodyEnds(s, i + 1, nesting, startLine, line + 1);
    } else if s[i] == '*' && i + 1 < |s| && s[i + 1] == '/' {
      BlockCommentEnds(s, i + 2, nesting - 1, line);
      if nesting - 1 < 0 {
        CommentCloser(s, i);
      }
    } else if s[i] == '/' && i + 1 < |s| && s[i + 1] == '*' {
      BlockCommentEnds(s, i + 2, nesting + 1, line);
    } else {
      CommentBodyEnds(s, i + 1, nesting, startLine, line);
    }
  }

  lemma CommentCloser(s: string, i: nat)
    requires i + 1 < |s| && s[i] == '*' && s[i + 1] == '/'
    ensures s[i..i + 2] == "*/"
  {
  }

  /**
    * The net nesting of a comment text read from the left: each `/` `*` pair opens a level and
    * each `*` `/` pair closes one, a character taking part in one pair only, the first pair
    * found from the left winning.
    */
  function Nesting(t: string): int {
    if |t| >= 2 && t[0] == '*' && t[1] == '/' then Nesting(t[2..]) - 1
    else if |t| >= 2 && t[0] == '/' && t[1] == '*' then Nesting(t[2..]) + 1
    else if t == [] then 0
    else Nesting(t[1..])
  }

  /** The position just after the last `/` `*` or `*` `/` pair of `t`, or 0 when it has none. */
  function LastPairEnd(t: string): (e: nat)
    ensures e <= |t|
  {
    if |t| >= 2 && ((t[0] == '*' && t[1] == '/') || (t[0] == '/' && t[1] == '*')) then
      (var e := LastPairEnd(t[2..]); if e == 0 then 2 else e + 2)
    else if t == [] then 0
    else (var e := LastPairEnd(t[1..]); if e == 0 then 0 else e + 1)
  }

  /**
    * `blockComment(nesting)` counts levels as `Nesting` does: a comment that ends has consumed
    * text that brings the nesting from `nesting` to -1, and no shorter text does; one that runs
    * to the end of the input never takes the nesting below zero on the way.
    */
  lemma {:induction false} BlockCommentNesting(s: string, i: nat, nesting: int, line: nat)
    requires i <= |s| && nesting >= -1
    ensures var r := BlockComment(s, i, nesting, line);
      && (r.unterminatedAt.None? ==> nesting + Nesting(s[i..r.next]) == -1)
      && (r.unterminatedAt.None? ==> forall j | i <= j < r.next :: nesting + Nesting(s[i..j]) >= 0)
      && (r.unterminatedAt.Some? ==> forall j | i <= j <= |s| :: nesting + Nesting(s[i..j]) >= 0)
    decreases |s| - i, 2
  {
    if nesting >= 0 {
      CommentBodyNesting(s, i, nesting, line, line);
    } else {
      assert s[i..i] == [];
    }
  }

  lemma {:induction false} CommentBodyNesting(s: string, i: nat, nesting: int, startLine: nat, line: nat)
    requires i <= |s| && nesting >= 0
    ensures var r := CommentBody(s, i, nesting, startLine, line);
      && (r.unterminatedAt.None? ==> nesting + Nesting(s[i..r.next]) == -1)
      && (r.unterminatedAt.None? ==> forall j | i <= j < r.next :: nesting + Nesting(s[i..j]) >= 0)
      && (r.unterminatedAt.Some? ==> forall j | i <= j <= |s| :: nesting + Nesting(s[i..j]) >= 0)
    decreases |s| - i, 1
  {
    if i == |s| {
      assert s[i..i] == [];
    } else if i + 1 < |s| && ((s[i] == '*' && s[i + 1] == '/') || (s[i] == '/' && s[i + 1] == '*')) {
      PairNesting(s, i, nesting, startLine, line);
    } else {
      NoPairNesting(s, i, nesting, startLine, line);
    }
  }

  /** A pair at `i` moves the nesting by one and the inner call accounts for the rest. */
  lemma {:induction false} PairNesting(s: string, i: nat, nesting: int, startLine: nat, line: nat)
    requires i + 1 < |s| && ((s[i] == '*' && s[i + 1] == '/') || (s[i] == '/' && s[i + 1] == '*'))
    requires nesting >= 0
    ensures var r := CommentBody(s, i, nesting, startLine, line);
      && (r.unterminatedAt.None? ==> nesting + Nesting(s[i..r.next]) == -1)
      && (r.unterminatedAt.None? ==> forall j | i <= j < r.next :: nesting + Nesting(s[i..j]) >= 0)
      && (r.unterminatedAt.Some? ==> forall j | i <= j <= |s| :: nesting + Nesting(s[i..j]) >= 0)
    decreases |s| - i, 0
  {
    var inner := nesting + (if s[i] == '*' then -1 else 1);
    var r := BlockComment(s, i + 2, inner, line);
    assert CommentBody(s, i, nesting, startLine, line) == r;
    BlockCommentNesting(s, i + 2, inner, line);
    BlockCommentEnds(s, i + 2, inner, line);
    var stop := if r.unterminatedAt.None? then r.next else |s| + 1;
    if r.unterminatedAt.None? {
      PairAt(s, i, r.next);
    }
    OpenAfterPair(s, i, i + 2, nesting, stop);
  }

  /** A character that starts no pair leaves the nesting as it is. */
  lemma {:induction false} NoPairNesting(s: string, i: nat, nesting: int, startLine: nat, line: nat)
    requires i < |s| && !(i + 1 < |s| && ((s[i] == '*' && s[i + 1] == '/') || (s[i] == '/' && s[i + 1] == '*')))
    requires nesting >= 0
    ensures var r := CommentBody(s, i, nesting, startLine, line);
      && (r.unterminatedAt.None? ==> nesting + Nesting(s[i..r.next]) == -1)
      && (r.unterminatedAt.None? ==> forall j | i <= j < r.next :: nesting + Nesting(s[i..j]) >= 0)
      && (r.unterminatedAt.Some? ==> forall j | i <= j <= |s| :: nesting + Nesting(s[i..j]) >= 0)
    decreases |s| - i, 0
  {
    var next := line + (if s[i] == '\n' then 1 else 0);
    var r := CommentBody(s, i + 1, nesting, startLine, next);
    assert CommentBody(s, i, nesting, startLine, line) == r;
    CommentBodyNesting(s, i + 1, nesting, startLine, next);
    var stop := if r.unterminatedAt.None? then r.next else |s| + 1;
    if r.unterminatedAt.None? {
      NoPairAt(s, i, r.next);
    }
    OpenAfterNoPair(s, i, i + 1, nesting, stop);
  }

  /** The prefixes through a pair at `i` stay open when those after the pair, at `after`, do. */
  lemma OpenAfterPair(s: string, i: nat, after: nat, nesting: int, stop: nat)
    requires i + 1 < |s| && ((s[i] == '*' && s[i + 1] == '/') || (s[i] == '/' && s[i + 1] == '*'))
    requires after == i + 2 && nesting >= 0 && after <= stop <= |s| + 1
    requires var inner := nesting + (if s[i] == '*' then -1 else 1);
      forall j | after <= j < stop && j <= |s| :: inner + Nesting(s[after..j]) >= 0
    ensures forall j | i <= j < stop && j <= |s| :: nesting + Nesting(s[i..j]) >= 0
  {
    forall j | i <= j < stop && j <= |s|
      ensures nesting + Nesting(s[i..j]) >= 0
    {
      if j >= i + 2 {
        PairAt(s, i, j);
      } else if j == i + 1 {
        assert s[i..j][1..] == [];
      }
    }
  }

  /** The prefixes through a character that starts no pair stay open when those after it, at `after`, do. */
  lemma OpenAfterNoPair(s: string, i: nat, after: nat, nesting: int, stop: nat)
    requires i < |s| && !(i + 1 < |s| && ((s[i] == '*' && s[i + 1] == '/') || (s[i] == '/' && s[i + 1] == '*')))
    requires after == i + 1 && nesting >= 0 && after <= stop <= |s| + 1
    requires forall j | after <= j < stop && j <= |s| :: nesting + Nesting(s[after..j]) >= 0
    ensures forall j | i <= j < stop && j <= |s| :: nesting + Nesting(s[i..j]) >= 0
  {
    forall j | i <= j < stop && j <= |s|
      ensures nesting + Nesting(s[i..j]) >= 0
    {
      if j > i {
        NoPairAt(s, i, j);
      }
    }
  }

  /**
    * An unterminated block comment is reported at the line where its innermost `blockComment`
    * call began: the line it started on when it holds no pair, otherwise the line reached
    * just after the last `/` `*` or `*` `/` pair it consumed.
    */
  lemma {:induction false} BlockCommentErrorLine(s: string, i: nat, nesting: int, line: nat)
    requires i <= |s|
    ensures var r := BlockComment(s, i, nesting, line);
      r.unterminatedAt.Some? ==> r.unterminatedAt.value == line + Newlines(s[i..i + LastPairEnd(s[i..|s|])])
    decreases |s| - i, 2
  {
    if nesting >= 0 {
      CommentBodyErrorLine(s, i, nesting, line, line);
      var r := BlockComment(s, i, nesting, line);
      if r.unterminatedAt.Some? && LastPairEnd(s[i..|s|]) == 0 {
        assert s[i..i] == [];
      }
    }
  }

  lemma {:induction false} CommentBodyErrorLine(s: string, i: nat, nesting: int, startLine: nat, line: nat)
    requires i <= |s|
    ensures var r := CommentBody(s, i, nesting, startLine, line);
      r.unterminatedAt.Some? ==>
        r.unterminatedAt.value ==
          (if LastPairEnd(s[i..|s|]) == 0 then startLine else line + Newlines(s[i..i + LastPairEnd(s[i..|s|])]))
    decreases |s| - i, 1
  {
    if i < |s| {
      if i + 1 < |s| && ((s[i] == '*' && s[i + 1] == '/') || (s[i] == '/' && s[i + 1] == '*')) {
        PairErrorLine(s, i, nesting, startLine, line);
      } else {
        NoPairErrorLine(s, i, nesting, startLine, line);
      }
    }
  }

  lemma {:induction false} PairErrorLine(s: string, i: nat, nesting: int, startLine: nat, line: nat)
    requires i + 1 < |s| && ((s[i] == '*' && s[i + 1] == '/') || (s[i] == '/' && s[i + 1] == '*'))
    ensures var r := CommentBody(s, i, nesting, startLine, line);
      r.unterminatedAt.Some? ==>
        r.unterminatedAt.value ==
          (if LastPairEnd(s[i..|s|]) == 0 then startLine else line + Newlines(s[i..i + LastPairEnd(s[i..|s|])]))
    decreases |s| - i, 0
  {
    var inner := nesting + (if s[i] == '*' then -1 else 1);
    BlockCommentErrorLine(s, i + 2, inner, line);
    PairAt(s, i, |s|);
  }

  lemma {:induction false} NoPairErrorLine(s: string, i: nat, nesting: int, startLine: nat, line: nat)
    requires i < |s| && !(i + 1 < |s| && ((s[i] == '*' && s[i + 1] == '/') || (s[i] == '/' && s[i + 1] == '*')))
    ensures var r := CommentBody(s, i, nesting, startLine, line);
      r.unterminatedAt.Some? ==>
        r.unterminatedAt.value ==
          (if LastPairEnd(s[i..|s|]) == 0 then startLine else line + Newlines(s[i..i + LastPairEnd(s[i..|s|])]))
    decreases |s| - i, 0
  {
    CommentBodyErrorLine(s, i + 1, nesting, startLine, line + (if s[i] == '\n' then 1 else 0));
    NoPairAt(s, i, |s|);
  }

  /** A pair at `i` is read as one step by `Nesting` and `LastPairEnd`. */
  lemma PairAt(s: string, i: nat, j: nat)
    requires i + 2 <= j <= |s| && ((s[i] == '*' && s[i + 1] == '/') || (s[i] == '/' && s[i + 1] == '*'))
    ensures Nesting(s[i..j]) == Nesting(s[i + 2..j]) + (if s[i] == '*' then -1 else 1)
    ensures var e := LastPairEnd(s[i + 2..j]);
      LastPairEnd(s[i..j]) == (if e == 0 then 2 else e + 2)
    ensures var e := LastPairEnd(s[i..j]);
      Newlines(s[i..i + e]) == Newlines(s[i + 2..i + e])
  {
    assert s[i..j][2..] == s[i + 2..j];
    var e := LastPairEnd(s[i..j]);
    NewlinesAfter(s, i, i + e);
    NewlinesAfter(s, i + 1, i + e);
  }

  /** A character at `i` that starts no pair is read as one step by `Nesting` and `LastPairEnd`. */
  lemma NoPairAt(s: string, i: nat, j: nat)
    requires i < j <= |s|
    requires !(i + 1 < |s| && ((s[i] == '*' && s[i + 1] == '/') || (s[i] == '/' && s[i + 1] == '*')))
    ensures Nesting(s[i..j]) == Nesting(s[i + 1..j])
    ensures var e := LastPairEnd(s[i + 1..j]);
      LastPairEnd(s[i..j]) == (if e == 0 then 0 else e + 1)
    ensures var e := LastPairEnd(s[i..j]);
      e != 0 ==> Newlines(s[i..i + e]) == (if s[i] == '\n' then 1 else 0) + Newlines(s[i + 1..i + e])
  {
    assert s[i..j][1..] == s[i + 1..j];
    var e := LastPairEnd(s[i..j]);
    if e != 0 {
      NewlinesAfter(s, i, i + e);
    }
  }

  /** Splitting off the first character of `s[i..j]`. */
  lemma NewlinesAfter(s: string, i: nat, j: nat)
    requires i < j <= |s|
    ensures Newlines(s[i..j]) == (if s[i] == '\n' then 1 else 0) + Newlines(s[i + 1..j])
  {
    assert s[i..j] == [s[i]] + s[i + 1..j];
    NewlinesAppend([s[i]], s[i + 1..j]);
    assert [s[i]][..0] == [];
  }

  /** Extending `s[i..j]` by the character at `j`. */
  lemma NewlinesExtend(s: string, i: nat, j: nat)
    requires i <= j < |s|
    ensures Newlines(s[i..j + 1]) == Newlines(s[i..j]) + (if s[j] == '\n' then 1 else 0)
  {
    assert s[i..j + 1][..j - i] == s[i..j];
  }

  // ---------------------------------------------------------------------------------------
  // One call of `scanToken`.

  function Emit(s: string, i: nat, j: nat, line: nat, kind: TokenType): StepResult
    requires i <= j <= |s|
  {
    StepResult(j, line, Some(Token(kind, s[i..j], line)), [])
  }

  /** `!`, `=`, `<` and `>`, each with its `=`-suffixed two-character form. */
  function OperatorKind(c: char, twoChar: bool): Symbol
    requires c in "!=<>"
  {
    match c
    case '!' => if twoChar then NotEqual else Not
    case '=' => if twoChar then DoubleEquals else Equals
    case '>' => if twoChar then GreaterThanOrEqual else GreaterThan
    case '<' => if twoChar then LessThanOrEqual else LessThan
  }

  function SingleCharSymbol(c: char): Option<Symbol> {
    match c
    case '(' => Some(LeftParenthesis)
    case ')' => Some(RightParenthesis)
    case '{' => Some(LeftBrace)
    case '}' => Some(RightBrace)
    case ',' => Some(Comma)
    case '.' => Some(Dot)
    case '-' => Some(Minus)
    case '+' => Some(Plus)
    case ';' => Some(Semicolon)
    case '*' => Some(Asterisk)
    case _ => None
  }

  /**
    * The shape every step has: the cursor moves forward and stays in the text, lines are only
    * added, and a token added has the lexeme `s[i..next]`, the line reached, and is never the
    * end-of-input marker.
    */
  predicate StepShape(s: string, i: nat, line: nat, r: StepResult)
    requires i < |s|
  {
    && i < r.next <= |s|
    && r.line >= line
    && (r.token.Some? ==> r.token.value.lexeme == s[i..r.next])
    && (r.token.Some? ==> r.token.value.line == r.line && r.token.value.kind != EOF)
  }

  function OperatorStep(s: string, i: nat, line: nat): (r: StepResult)
    requires i < |s| && s[i] in "!=<>"
    ensures StepShape(s, i, line, r)
  {
    var twoChar := i + 1 < |s| && s[i + 1] == '=';
    Emit(s, i, if twoChar then i + 2 else i + 1, line, Sym(OperatorKind(s[i], twoChar)))
  }

  function IdentifierStep(s: string, i: nat, line: nat): (r: StepResult)
    requires i < |s|
    ensures StepShape(s, i, line, r)
  {
    var e := IdentifierEnd(s, i + 1);
    Emit(s, i, e, line, KeywordOrIdentifier(s[i..e]))
  }

  function NumberStep(s: string, i: nat, line: nat): (r: StepResult)
    requires i < |s|
    ensures StepShape(s, i, line, r)
  {
    var e := NumberEnd(s, i + 1);
    var raw := s[i..e];
    match ParseDecimal(raw)
    case None => StepResult(e, line, None, [ScanError(line, "Invalid numeric literal " + raw)])
    case Some(v) => Emit(s, i, e, line, LoxNumber(v))
  }

  /** A string: the token line is the line reached at the closing quote. */
  function StringStep(s: string, i: nat, line: nat): (r: StepResult)
    requires i < |s|
    ensures StepShape(s, i, line, r)
  {
    var e := Find(s, i + 1, '"');
    var l := line + Newlines(s[i + 1..e]);
    if e == |s| then StepResult(e, l, None, [ScanError(l, "Unterminated string.")])
    else Emit(s, i, e + 1, l, LoxString(s[i + 1..e]))
  }

  /** `/`: a line comment, a block comment or the division symbol. */
  function SlashStep(s: string, i: nat, line: nat): (r: StepResult)
    requires i < |s|
    ensures StepShape(s, i, line, r)
  {
    var j := i + 1;
    if j < |s| && s[j] == '/' then
      StepResult(Find(s, j + 1, '\n'), line, None, [])
    else if j < |s| && s[j] == '*' then
      var b := BlockComment(s, j + 1, 0, line);
      StepResult(b.next, b.line, None,
                 match b.unterminatedAt
                 case None => []
                 case Some(at) => [ScanError(at, "Unterminated block comment.")])
    else
      Emit(s, i, j, line, Sym(Slash))
  }

  /**
    * What `scanToken` does with the character at `i` (the cursor is at `i + 1`): where the cursor
    * ends, the new line count, the token it adds and the errors it records.
    */
  function Step(s: string, i: nat, line: nat): (r: StepResult)
    requires i < |s|
    ensures StepShape(s, i, line, r)
  {
    var c := s[i];
    if SingleCharSymbol(c).Some? then Emit(s, i, i + 1, line, Sym(SingleCharSymbol(c).value))
    else if c in "!=<>" then OperatorStep(s, i, line)
    else if IsIdentifierChar(c) then IdentifierStep(s, i, line)
    else if IsDigit(c) then NumberStep(s, i, line)
    else if c == '"' then StringStep(s, i, line)
    else if c == '/' then SlashStep(s, i, line)
    else if c == ' ' || c == '\r' || c == '\t' then StepResult(i + 1, line, None, [])
    else if c == '\n' then StepResult(i + 1, line + 1, None, [])
    else StepResult(i + 1, line, None, [ScanError(line, "Unexpected character.")])
  }

  // ---------------------------------------------------------------------------------------
  // The whole scan.

  function Join(a: ScanResult, b: ScanResult): ScanResult {
    ScanResult(a.tokens + b.tokens, a.errors + b.errors)
  }

  function StepOutput(r: StepResult): ScanResult {
    ScanResult(OptionToSeq(r.token), r.errors)
  }

  /** `scanTokens` from cursor `i` with `line` lines counted so far. */
  function ScanFrom(s: string, i: nat, line: nat): ScanResult
    requires i <= |s|
    decreases |s| - i
  {
    if i == |s| then
      ScanResult([Token(EOF, "", line)], [])
    else
      var r := Step(s, i, line);
      Join(StepOutput(r), ScanFrom(s, r.next, r.line))
  }

  /** Output is concatenated: joining is associative. */
  lemma JoinAssociative(a: ScanResult, b: ScanResult, c: ScanResult)
    ensures Join(Join(a, b), c) == Join(a, Join(b, c))
  {
  }

  /** `Scanner(source).scanTokens()`. */
  function Scan(s: string): ScanResult {
    ScanFrom(s, 0, 1)
  }

  // ---------------------------------------------------------------------------------------
  // Properties of one step.

  /** A step that stays on one line consumes no line feed. */
  lemma NoNewlinesBetween(s: string, i: nat, j: nat)
    requires i <= j <= |s|
    requires forall k | i <= k < j :: s[k] != '\n'
    ensures Newlines(s[i..j]) == 0
  {
    NoNewlines(s[i..j]);
  }

  lemma StringStepLines(s: string, i: nat, line: nat)
    requires i < |s| && s[i] == '"'
    ensures var r := StringStep(s, i, line); r.line == line + Newlines(s[i..r.next])
  {
    var r := StringStep(s, i, line);
    var e := Find(s, i + 1, '"');
    NewlinesAfter(s, i, r.next);
    if e < |s| {
      assert s[i + 1..e + 1] == s[i + 1..e] + [s[e]];
      NewlinesAppend(s[i + 1..e], [s[e]]);
      assert [s[e]][..0] == [];
    }
  }

  lemma SlashStepLines(s: string, i: nat, line: nat)
    requires i < |s| && s[i] == '/'
    ensures var r := SlashStep(s, i, line); r.line == line + Newlines(s[i..r.next])
  {
    var r := SlashStep(s, i, line);
    var j := i + 1;
    if j < |s| && s[j] == '/' {
      NoNewlinesBetween(s, i, r.next);
    } else if j < |s| && s[j] == '*' {
      BlockCommentLines(s, j + 1, 0, line);
      NewlinesAfter(s, i, r.next);
      NewlinesAfter(s, j, r.next);
    } else {
      NoNewlinesBetween(s, i, r.next);
    }
  }

  lemma NumberStepLines(s: string, i: nat, line: nat)
    requires i < |s| && IsDigit(s[i])
    ensures var r := NumberStep(s, i, line); r.line == line + Newlines(s[i..r.next])
  {
    var r := NumberStep(s, i, line);
    var d := DigitsEnd(s, i + 1);
    forall k | i <= k < r.next ensures s[k] != '\n' {
      assert k == i || k < d || k == d || d + 1 <= k;
    }
    NoNewlinesBetween(s, i, r.next);
  }

  /** `line` grows by exactly the line feeds the step consumed: in whitespace, strings or comments. */
  lemma StepCountsLines(s: string, i: nat, line: nat)
    requires i < |s|
    ensures var r := Step(s, i, line); r.line == line + Newlines(s[i..r.next])
  {
    var r := Step(s, i, line);
    var c := s[i];
    if SingleCharSymbol(c).Some? || c in "!=<>" || IsIdentifierChar(c) {
      NoNewlinesBetween(s, i, r.next);
    } else if IsDigit(c) {
      NumberStepLines(s, i, line);
    } else if c == '"' {
      StringStepLines(s, i, line);
    } else if c == '/' {
      SlashStepLines(s, i, line);
    } else {
      NewlinesAfter(s, i, r.next);
      assert s[i + 1..r.next] == [];
    }
  }

  /** `!`, `=`, `<` and `>` take a following `=` into one two-character token, and otherwise stand alone. */
  lemma StepOperator(s: string, i: nat, line: nat)
    requires i < |s| && s[i] in "!=<>"
    ensures var twoChar := i + 1 < |s| && s[i + 1] == '=';
      var r := Step(s, i, line);
      && r.next == (if twoChar then i + 2 else i + 1)
      && r.token == Some(Token(Sym(OperatorKind(s[i], twoChar)), s[i..r.next], line))
      && r.errors == [] && r.line == line
  {
  }

  /** The two-character operators are exactly `!=`, `==`, `>=` and `<=`. */
  lemma OperatorKinds(c: char)
    requires c in "!=<>"
    ensures OperatorKind(c, true).Text() == [c, '=']
    ensures OperatorKind(c, false).Text() == [c]
  {
  }

  /** The number lexeme `s[i..e]` (digits, then optionally `.` and digits) is a decimal numeral. */
  lemma NumberLexemeScanned(s: string, i: nat)
    requires i < |s| && IsDigit(s[i])
    ensures var e := NumberEnd(s, i + 1);
      && IsNumberLexeme(s[i..e]) && (e == |s| || !IsDigit(s[e])) && s[e - 1] != '.'
  {
    var d := DigitsEnd(s, i + 1);
    var e := NumberEnd(s, i + 1);
    assert forall k | i <= k < d :: IsDigit(s[k]);
    DigitRun(s, i, d);
    if d + 1 < |s| && s[d] == '.' && IsDigit(s[d + 1]) {
      assert e == DigitsEnd(s, d + 1);
      DigitRun(s, d + 1, e);
      var t := s[i..e];
      var p := d - i;
      assert t[p] == '.' && t[..p] == s[i..d] && t[p + 1..] == s[d + 1..e];
      assert IsDigit(s[e - 1]);
    } else {
      assert e == d && IsDigit(s[e - 1]);
    }
  }

  lemma DigitRun(s: string, a: nat, b: nat)
    requires a <= b <= |s| && forall k | a <= k < b :: IsDigit(s[k])
    ensures AllDigits(s[a..b])
  {
    forall k | 0 <= k < b - a
      ensures IsDigit(s[a..b][k])
    {
      assert s[a..b][k] == s[a + k];
    }
  }

  /**
    * A number takes every digit, then a `.` only when a digit follows it, then every digit after
    * that; its value is the decimal reading of the lexeme, so no number lexeme is ever refused.
    */
  lemma StepNumber(s: string, i: nat, line: nat)
    requires i < |s| && IsDigit(s[i])
    ensures var r := Step(s, i, line);
      && r.errors == [] && r.line == line
      && IsNumberLexeme(s[i..r.next])
      && r.token.Some? && r.token.value.kind.LoxNumber?
      && ParseDecimal(s[i..r.next]) == Some(r.token.value.kind.number)
      && (r.next == |s| || !IsDigit(s[r.next]))
      && s[r.next - 1] != '.'
  {
    StepOnDigit(s, i, line);
    NumberLexemeScanned(s, i);
  }

  /** A digit starts a number: no symbol, operator or identifier begins with one. */
  lemma StepOnDigit(s: string, i: nat, line: nat)
    requires i < |s| && IsDigit(s[i])
    ensures Step(s, i, line) == NumberStep(s, i, line)
  {
    assert SingleCharSymbol(s[i]).None? && s[i] !in "!=<>" && !IsIdentifierChar(s[i]);
  }

  /**
    * A string token's value is exactly the text between the quotes and the scan goes on after
    * the closing quote; without a closing quote the rest of the input is consumed, one
    * "Unterminated string." is recorded and no token is added.
    */
  lemma StepString(s: string, i: nat, line: nat)
    requires i < |s| && s[i] == '"'
    ensures var r := Step(s, i, line);
      && r.line == line + Newlines(s[i..r.next])
      && (forall k | i < k < r.next - 1 :: s[k] != '"')
      && if r.token.Some? then
           && i + 2 <= r.next && s[r.next - 1] == '"'
           && r.token == Some(Token(LoxString(s[i + 1..r.next - 1]), s[i..r.next], r.line))
           && r.errors == []
         else
           && r.next == |s| && (forall k | i < k < |s| :: s[k] != '"')
           && r.errors == [ScanError(r.line, "Unterminated string.")]
  {
    StepCountsLines(s, i, line);
  }

  /**
    * An identifier-shaped word takes every following identifier character and becomes a
    * keyword, a keyword literal or an identifier carrying the word.
    */
  lemma StepIdentifier(s: string, i: nat, line: nat)
    requires i < |s| && IsIdentifierChar(s[i])
    ensures var r := Step(s, i, line);
      && r.token == Some(Token(KeywordOrIdentifier(s[i..r.next]), s[i..r.next], line))
      && (forall k | i <= k < r.next :: IsIdentifierChar(s[k]))
      && (r.next == |s| || !IsIdentifierChar(s[r.next]))
      && r.errors == [] && r.line == line
  {
  }

  /** Spaces, carriage returns and tabs produce nothing; a line feed only counts a line. */
  lemma StepWhitespace(s: string, i: nat, line: nat)
    requires i < |s| && s[i] in " \r\t\n"
    ensures Step(s, i, line) == StepResult(i + 1, if s[i] == '\n' then line + 1 else line, None, [])
  {
  }

  /** Any other character records one "Unexpected character." at the current line and is skipped. */
  lemma StepUnexpected(s: string, i: nat, line: nat)
    requires i < |s|
    requires SingleCharSymbol(s[i]).None? && s[i] !in "!=<>/\" \r\t\n"
    requires !IsIdentifierChar(s[i]) && !IsDigit(s[i])
    ensures Step(s, i, line) == StepResult(i + 1, line, None, [ScanError(line, "Unexpected character.")])
  {
  }

  /**
    * A block comment adds no token and at most one error, "Unterminated block comment.", only
    * when the comment runs to the end of the input.
    */
  lemma StepBlockComment(s: string, i: nat, line: nat)
    requires i + 1 < |s| && s[i] == '/' && s[i + 1] == '*'
    ensures var r := Step(s, i, line);
      && r.token == None
      && |r.errors| <= 1
      && (|r.errors| == 1 ==>
            r.next == |s| && r.errors[0].message == "Unterminated block comment." && line <= r.errors[0].line <= r.line)
      && (r.errors == [] ==> i + 4 <= r.next && s[r.next - 2..r.next] == "*/")
      && (r.errors == [] ==> Nesting(s[i + 2..r.next]) == -1)
      && (r.errors == [] ==> var text := s[i + 2..r.next]; forall k | 0 <= k < |text| :: Nesting(text[..k]) >= 0)
      && (r.errors != [] ==>
            && (var text := s[i + 2..]; forall k | 0 <= k <= |text| :: Nesting(text[..k]) >= 0)
            && r.errors[0].line == line + Newlines(s[i + 2..i + 2 + LastPairEnd(s[i + 2..|s|])]))
  {
    BlockCommentEnds(s, i + 2, 0, line);
    BlockCommentNesting(s, i + 2, 0, line);
    BlockCommentErrorLine(s, i + 2, 0, line);
    BlockCommentPrefixes(s, i + 2, line);
  }

  /** `BlockCommentNesting` for a comment opened at nesting 0, read over prefixes of its text. */
  lemma BlockCommentPrefixes(s: string, i: nat, line: nat)
    requires i <= |s|
    ensures var r := BlockComment(s, i, 0, line);
      && (r.unterminatedAt.None? ==> var text := s[i..r.next]; forall k | 0 <= k < |text| :: Nesting(text[..k]) >= 0)
      && (r.unterminatedAt.Some? ==> var text := s[i..]; forall k | 0 <= k <= |text| :: Nesting(text[..k]) >= 0)
  {
    BlockCommentNesting(s, i, 0, line);
    var r := BlockComment(s, i, 0, line);
    var text := s[i..if r.unterminatedAt.None? then r.next else |s|];
    forall k | 0 <= k <= |text|
      ensures text[..k] == s[i..i + k]
    {
    }
    assert s[i..] == s[i..|s|];
  }

  /**
    * Nested comments: three unclosed openers on three lines are reported once, at the line of
    * the innermost one; two openers and one closer leave one level open; two of each close it;
    * a comment closed at once ends at its own closer, not at a later one.
    */
  lemma NestedCommentExamples()
    ensures Step("/*a\n/*b\n/*c", 0, 1).errors == [ScanError(3, "Unterminated block comment.")]
    ensures Step("/* /* */", 0, 1).errors == [ScanError(1, "Unterminated block comment.")]
    ensures Step("/* /* */ */", 0, 1) == StepResult(11, 1, None, [])
    ensures Step("/**/ /* */", 0, 1) == StepResult(4, 1, None, [])
  {
  }

  // ---------------------------------------------------------------------------------------
  // Properties of the whole scan.

  predicate EofOnlyLast(ts: seq<Token>) {
    forall k | 0 <= k < |ts| - 1 :: ts[k].kind != EOF
  }

  /** Every token is at `line` or later, and token lines never decrease. */
  predicate LinesFrom(ts: seq<Token>, line: nat) {
    && (forall k | 0 <= k < |ts| :: line <= ts[k].line)
    && (forall a, b | 0 <= a <= b < |ts| :: ts[a].line <= ts[b].line)
  }

  /**
    * The token list ends with an end-of-input token, which carries the final line count: the
    * starting line plus the line feeds in the rest of the input.
    */
  lemma {:induction false} ScanFromEndsWithEof(s: string, i: nat, line: nat)
    requires i <= |s|
    ensures var r := ScanFrom(s, i, line);
      |r.tokens| >= 1 && r.tokens[|r.tokens| - 1] == Token(EOF, "", line + Newlines(s[i..]))
    decreases |s| - i
  {
    if i == |s| {
      assert s[i..] == [];
    } else {
      var st := Step(s, i, line);
      ScanFromEndsWithEof(s, st.next, st.line);
      ScanFromTokens(s, i, line);
      LinesAcrossStep(s, i, line);
    }
  }

  /** The tokens from cursor `i`: the step's token, if any, then the tokens after the step. */
  lemma ScanFromTokens(s: string, i: nat, line: nat)
    requires i < |s|
    ensures var st := Step(s, i, line);
      ScanFrom(s, i, line).tokens == OptionToSeq(st.token) + ScanFrom(s, st.next, st.line).tokens
  {
  }

  /** The line feeds counted by a step and those left after it add up to those left before it. */
  lemma LinesAcrossStep(s: string, i: nat, line: nat)
    requires i < |s|
    ensures var st := Step(s, i, line); st.line + Newlines(s[st.next..]) == line + Newlines(s[i..])
  {
    var st := Step(s, i, line);
    StepCountsLines(s, i, line);
    assert s[i..] == s[i..st.next] + s[st.next..];
    NewlinesAppend(s[i..st.next], s[st.next..]);
  }

  /** No token before the last one is an end-of-input token. */
  lemma {:induction false} ScanFromSingleEof(s: string, i: nat, line: nat)
    requires i <= |s|
    ensures EofOnlyLast(ScanFrom(s, i, line).tokens)
    decreases |s| - i
  {
    if i < |s| {
      var st := Step(s, i, line);
      ScanFromSingleEof(s, st.next, st.line);
      ScanFromTokens(s, i, line);
      EofOnlyLastPrepend(OptionToSeq(st.token), ScanFrom(s, st.next, st.line).tokens);
    }
  }

  /** Putting tokens other than end-of-input in front keeps the end-of-input token last. */
  lemma EofOnlyLastPrepend(head: seq<Token>, rest: seq<Token>)
    requires forall k | 0 <= k < |head| :: head[k].kind != EOF
    requires EofOnlyLast(rest)
    ensures EofOnlyLast(head + rest)
  {
    var ts := head + rest;
    forall k | 0 <= k < |ts| - 1 ensures ts[k].kind != EOF {
      if k >= |head| {
        assert ts[k] == rest[k - |head|];
      }
    }
  }

  /** Token lines never decrease through the output and start at the line the scan started on. */
  lemma {:induction false} ScanFromLinesOrdered(s: string, i: nat, line: nat)
    requires i <= |s|
    ensures LinesFrom(ScanFrom(s, i, line).tokens, line)
    decreases |s| - i
  {
    if i < |s| {
      var st := Step(s, i, line);
      ScanFromLinesOrdered(s, st.next, st.line);
      ScanFromTokens(s, i, line);
      LinesFromPrepend(OptionToSeq(st.token), ScanFrom(s, st.next, st.line).tokens, line, st.line);
    }
  }

  /** Tokens between `line` and `middle` put in front of tokens from `middle` on keep the lines ordered. */
  lemma LinesFromPrepend(head: seq<Token>, rest: seq<Token>, line: nat, middle: nat)
    requires forall k | 0 <= k < |head| :: line <= head[k].line <= middle
    requires forall a, b | 0 <= a <= b < |head| :: head[a].line <= head[b].line
    requires line <= middle && LinesFrom(rest, middle)
    ensures LinesFrom(head + rest, line)
  {
    var ts := head + rest;
    forall k | 0 <= k < |ts| ensures line <= ts[k].line {
      if k >= |head| {
        assert ts[k] == rest[k - |head|];
      }
    }
    forall a, b | 0 <= a <= b < |ts| ensures ts[a].line <= ts[b].line {
      if a < |head| && b >= |head| {
        assert ts[b] == rest[b - |head|];
      } else if a >= |head| {
        assert ts[a] == rest[a - |head|] && ts[b] == rest[b - |head|];
      }
    }
  }

  /** For the whole input: one final end-of-input token at line 1 + (number of line feeds), and ordered lines. */
  lemma ScanShape(s: string)
    ensures var r := Scan(s);
      && |r.tokens| >= 1
      && r.tokens[|r.tokens| - 1] == Token(EOF, "", 1 + Newlines(s))
      && EofOnlyLast(r.tokens)
      && LinesFrom(r.tokens, 1)
  {
    ScanFromEndsWithEof(s, 0, 1);
    ScanFromSingleEof(s, 0, 1);
    ScanFromLinesOrdered(s, 0, 1);
    assert s[0..] == s;
  }
}
