/**
 * The character scanner (lexer.c).
 *
 * The input is the text before the NUL terminator; `At` reads the terminator
 * at and beyond the end, and an embedded '\0' ends the input as in C.
 * `StepAt` is one turn of the scanner's `for(;;) switch`, `Lex` the whole pass
 * as a function, and `Lexer.Tokenize` the loop itself, proved to compute `Lex`.
 */
module Lexer {
  import opened Tokens

  /** Why tokenizing stopped: `err` calls and the `return NULL` exits of the number scanner. */
  datatype LexError =
    | InvalidSymbol(c: char)   // a lone '&' or '|'
    | InvalidChar(c: char)
    | EmptyChar                // ''
    | UnclosedChar             // the closing ' is missing
    | UnclosedString           // '\0' before the closing "
    | TwoDots
    | NoDigitAfterDot
    | TwoExponents
    | NoDigitAfterExponent
    | NoDigitAfterSign

  datatype LexResult = Lexed(tokens: seq<Token>) | Failed(error: LexError)

  /** The character at `i`, or the terminator past the end. */
  function At(src: string, i: nat): char
  {
    if i < |src| then src[i] else '\0'
  }

  predicate IsAlpha(c: char) { 'a' <= c <= 'z' || 'A' <= c <= 'Z' }
  predicate IsAlnum(c: char) { IsAlpha(c) || IsDigit(c) }
  predicate IsIdentChar(c: char) { IsAlnum(c) || c == '_' }

  /**
   * is_exponent: the exponent marker of a number. It is a letter and none of
   * the number loop's other characters, so the loop's exponent checks see it alone.
   */
  function IsExponent(c: char): (b: bool)
    ensures b ==> IsAlpha(c) && !IsDigit(c) && c != '.' && c != '+' && c != '-'
  {
    c == 'e' || c == 'E'
  }

  /** The characters the number loop keeps consuming: digits, '.', 'e', 'E', '+' and '-'. */
  predicate InNumber(c: char) { IsDigit(c) || c == '.' || IsExponent(c) || c == '+' || c == '-' }

  /** How each keyword code is spelled; the other codes have no keyword spelling. */
  function Spelling(c: Code): Option<string>
  {
    match c
    case TypeChar => Some("char")
    case TypeInt => Some("int")
    case TypeDouble => Some("double")
    case While => Some("while")
    case If => Some("if")
    case For => Some("for")
    case Break => Some("break")
    case Else => Some("else")
    case Struct => Some("struct")
    case Return => Some("return")
    case Void => Some("void")
    case _ => None
  }

  /** The eleven keywords and their codes: the inverse of `Spelling`. */
  function Keyword(text: string): (r: Option<Code>)
    ensures forall c :: r == Some(c) <==> Spelling(c) == Some(text)
  {
    if text == "char" then Some(TypeChar)
    else if text == "int" then Some(TypeInt)
    else if text == "double" then Some(TypeDouble)
    else if text == "while" then Some(While)
    else if text == "if" then Some(If)
    else if text == "for" then Some(For)
    else if text == "break" then Some(Break)
    else if text == "else" then Some(Else)
    else if text == "struct" then Some(Struct)
    else if text == "return" then Some(Return)
    else if text == "void" then Some(Void)
    else None
  }

  /** The one-character tokens that need no lookahead. */
  function Punct(c: char): Option<Code>
  {
    if c == ',' then Some(Comma)
    else if c == '(' then Some(LPar)
    else if c == ')' then Some(RPar)
    else if c == '{' then Some(LAcc)
    else if c == '}' then Some(RAcc)
    else if c == '[' then Some(LBracket)
    else if c == ']' then Some(RBracket)
    else if c == ';' then Some(Semicolon)
    else if c == '+' then Some(Add)
    else if c == '*' then Some(Mul)
    else if c == '-' then Some(Sub)
    else if c == '.' then Some(Dot)
    else None
  }

  /** extract: the characters from `b` up to, not including, `e`. */
  function Extract(src: string, b: nat, e: nat): (r: string)
    requires b <= e <= |src|
    ensures |r| == e - b
    ensures forall k :: 0 <= k < |r| ==> r[k] == src[b + k]
  {
    src[b..e]
  }

  /** The end of the maximal identifier run starting at `i`. */
  function IdentEnd(src: string, i: nat): (j: nat)
    requires i <= |src|
    ensures i <= j <= |src|
    ensures forall k :: i <= k < j ==> IsIdentChar(src[k])
    ensures !IsIdentChar(At(src, j))
    decreases |src| - i
  {
    if IsIdentChar(At(src, i)) then IdentEnd(src, i + 1) else i
  }

  /** Where a `//` comment stops: at the first '\n' or at the terminator. */
  function LineEnd(src: string, i: nat): (j: nat)
    requires i <= |src|
    ensures i <= j <= |src|
    ensures forall k :: i <= k < j ==> src[k] != '\n' && src[k] != '\0'
    ensures At(src, j) == '\n' || At(src, j) == '\0'
    decreases |src| - i
  {
    if At(src, i) != '\0' && At(src, i) != '\n' then LineEnd(src, i + 1) else i
  }

  /** Where a string literal's text stops: at the first '"' or at the terminator. */
  function StrEnd(src: string, i: nat): (j: nat)
    requires i <= |src|
    ensures i <= j <= |src|
    ensures forall k :: i <= k < j ==> src[k] != '"' && src[k] != '\0'
    ensures At(src, j) == '"' || At(src, j) == '\0'
    decreases |src| - i
  {
    if At(src, i) != '"' && At(src, i) != '\0' then StrEnd(src, i + 1) else i
  }

  datatype NumScan = NumEnd(end: nat, dot: bool, exp: bool) | NumFail(error: LexError)

  /**
   * The number loop from `i` on, with the flags `dot_seen` and `exponent_seen`.
   * It stops at the first character outside digits, '.', 'e', 'E', '+', '-'.
   */
  function NumberRun(src: string, i: nat, dot: bool, exp: bool): (r: NumScan)
    requires i <= |src|
    ensures r.NumEnd? ==> i <= r.end <= |src| && !InNumber(At(src, r.end))
    ensures r.NumEnd? ==> forall k :: i <= k < r.end ==> InNumber(src[k])
    decreases |src| - i
  {
    var c := At(src, i);
    if !InNumber(c) then NumEnd(i, dot, exp)
    else if c == '.' && dot then NumFail(TwoDots)
    else if c == '.' && !IsDigit(At(src, i + 1)) then NumFail(NoDigitAfterDot)
    else if IsExponent(c) && exp then NumFail(TwoExponents)
    else if IsExponent(c) && !IsDigit(At(src, i + 1)) && At(src, i + 1) != '+' && At(src, i + 1) != '-'
    then NumFail(NoDigitAfterExponent)
    else if IsExponent(c) && (At(src, i + 1) == '+' || At(src, i + 1) == '-') && !IsDigit(At(src, i + 2))
    then NumFail(NoDigitAfterSign)
    else NumberRun(src, i + 1, dot || c == '.', exp || IsExponent(c))
  }

  /** What one turn of the scanner does at `i`. */
  datatype Step =
    | Skip(next: nat, newLine: int)   // blank, newline or comment: no token
    | Emit(tk: Token, next: nat)      // one token appended
    | Stop                            // the terminator: END is appended and the list returned
    | Fail(error: LexError)

  /** One turn of the scanner's switch at position `i`, on line `line`. */
  function StepAt(src: string, i: nat, line: int): (s: Step)
    requires i <= |src|
    ensures s.Skip? ==> i < s.next <= |src|
    ensures s.Emit? ==> i < s.next <= |src|
  {
    var c := At(src, i);
    if c == ' ' || c == '\t' then Skip(i + 1, line)
    else if c == '\r' then Skip(if At(src, i + 1) == '\n' then i + 2 else i + 1, line + 1)
    else if c == '\n' then Skip(i + 1, line + 1)
    else if c == '\0' then Stop
    else if Punct(c).Some? then Emit(Token(Punct(c).value, line, ""), i + 1)
    else if c == '!' then
      if At(src, i + 1) == '=' then Emit(Token(NotEq, line, ""), i + 2) else Emit(Token(Not, line, ""), i + 1)
    else if c == '|' then
      if At(src, i + 1) == '|' then Emit(Token(Or, line, ""), i + 2) else Fail(InvalidSymbol(c))
    else if c == '<' then
      if At(src, i + 1) == '=' then Emit(Token(LessEq, line, ""), i + 2) else Emit(Token(Less, line, ""), i + 1)
    else if c == '>' then
      if At(src, i + 1) == '=' then Emit(Token(GreaterEq, line, ""), i + 2) else Emit(Token(Greater, line, ""), i + 1)
    else if c == '=' then
      if At(src, i + 1) == '=' then Emit(Token(Equal, line, ""), i + 2) else Emit(Token(Assign, line, ""), i + 1)
    else if c == '&' then
      if At(src, i + 1) == '&' then Emit(Token(And, line, ""), i + 2) else Fail(InvalidSymbol(c))
    else if c == '/' then
      if At(src, i + 1) == '/' then Skip(LineEnd(src, i), line) else Emit(Token(Div, line, ""), i + 1)
    else if c == '\'' then
      if At(src, i + 1) == '\'' then Fail(EmptyChar)
      else if At(src, i + 2) != '\'' then Fail(UnclosedChar)
      else Emit(Token(Char, line, [At(src, i + 1)]), i + 3)
    else if c == '"' then
      var j := StrEnd(src, i + 1);
      if At(src, j) == '\0' then Fail(UnclosedString) else Emit(Token(String, line, Extract(src, i + 1, j)), j + 1)
    else if IsAlpha(c) || c == '_' then
      var j := IdentEnd(src, i + 1);
      var text := Extract(src, i, j);
      if Keyword(text).Some? then Emit(Token(Keyword(text).value, line, ""), j) else Emit(Token(Id, line, text), j)
    else if IsDigit(c) then
      match NumberRun(src, i, false, false)
      case NumFail(e) => Fail(e)
      case NumEnd(j, d, e) => Emit(Token(if d || e then Double else Int, line, Extract(src, i, j)), j)
    else Fail(InvalidChar(c))
  }

  /** A token put in front of the rest of the stream; a failure stays a failure. */
  function Cons(tk: Token, rest: LexResult): LexResult
  {
    match rest
    case Lexed(ts) => Lexed([tk] + ts)
    case Failed(e) => Failed(e)
  }

  /** Tokens already in the list put in front of a result; a failure stays a failure. */
  function Prepend(ts: seq<Token>, rest: LexResult): LexResult
  {
    match rest
    case Lexed(more) => Lexed(ts + more)
    case Failed(e) => Failed(e)
  }

  /** The whole scan from position `i` on line `line`. */
  function Lex(src: string, i: nat, line: int): (r: LexResult)
    requires i <= |src|
    ensures r.Lexed? ==> |r.tokens| > 0 && r.tokens[|r.tokens| - 1].code == End
    decreases |src| - i
  {
    match StepAt(src, i, line)
    case Stop => Lexed([Token(End, line, "")])
    case Fail(e) => Failed(e)
    case Skip(j, l) => Lex(src, j, l)
    case Emit(tk, j) => Cons(tk, Lex(src, j, line))
  }

  /** A list one longer than `ts` that starts with `ts` is `ts` and its last token. */
  lemma OneAppended(ts: seq<Token>, ts': seq<Token>)
    requires |ts'| == |ts| + 1 && ts'[..|ts|] == ts
    ensures ts' == ts + [ts'[|ts'| - 1]]
  {
  }

  lemma EmitAdvances(ts: seq<Token>, src: string, i: nat, line: int, tk: Token, j: nat)
    requires i <= |src| && StepAt(src, i, line) == Emit(tk, j)
    ensures Prepend(ts, Lex(src, i, line)) == Prepend(ts + [tk], Lex(src, j, line))
  {
    match Lex(src, j, line)
    case Lexed(more) => assert ts + ([tk] + more) == ts + [tk] + more;
    case Failed(_) =>
  }

  lemma SkipAdvances(ts: seq<Token>, src: string, i: nat, line: int, j: nat, l: int)
    requires i <= |src| && StepAt(src, i, line) == Skip(j, l)
    ensures Prepend(ts, Lex(src, i, line)) == Prepend(ts, Lex(src, j, l))
  {
  }

  lemma FailStops(ts: seq<Token>, src: string, i: nat, line: int, e: LexError)
    requires i <= |src| && StepAt(src, i, line) == Fail(e)
    ensures Prepend(ts, Lex(src, i, line)) == Failed(e)
  {
  }

  /**
   * The globals of lexer.c: the token list (`tokens` up to `lastTk`) and the
   * current line.
   */
  class Lexer {
    var tokens: seq<Token>
    var line: int

    /** The start state: no tokens, line 1. */
    constructor ()
      ensures tokens == [] && line == 1
    {
      tokens := [];
      line := 1;
    }

    /**
     * addTk: appends a token with the given code on the current line. The text
     * is the payload the caller stores into the returned token right after.
     */
    method AddTk(code: Code, text: string)
      modifies this
      ensures tokens == old(tokens) + [Token(code, line, text)]
      ensures line == old(line)
    {
      tokens := tokens + [Token(code, line, text)];
    }

    /** A character literal: exactly one character between quotes. */
    method ScanChar(src: string, i: nat) returns (j: nat, err: Option<LexError>)
      requires i < |src| && src[i] == '\''
      modifies this
      ensures line == old(line)
      ensures err.Some? ==> StepAt(src, i, line) == Fail(err.value)
      ensures err.None? ==> |tokens| == |old(tokens)| + 1 && tokens[..|old(tokens)|] == old(tokens)
      ensures err.None? ==> StepAt(src, i, line) == Emit(tokens[|tokens| - 1], j)
    {
      j := i + 1;
      var start := j;
      if At(src, j) == '\'' {
        return j, Some(EmptyChar);
      }
      j := j + 1;
      AddTk(Char, [At(src, start)]);
      if At(src, j) != '\'' {
        return j, Some(UnclosedChar);
      }
      j := j + 1;
      err := None;
    }

    /** A string literal: the text up to the next '"'; the terminator first is an error. */
    method ScanString(src: string, i: nat) returns (j: nat, err: Option<LexError>)
      requires i < |src| && src[i] == '"'
      modifies this
      ensures line == old(line)
      ensures err.Some? ==> StepAt(src, i, line) == Fail(err.value)
      ensures err.None? ==> |tokens| == |old(tokens)| + 1 && tokens[..|old(tokens)|] == old(tokens)
      ensures err.None? ==> StepAt(src, i, line) == Emit(tokens[|tokens| - 1], j)
    {
      j := i + 1;
      var start := j;
      while true
        invariant start <= j <= |src|
        invariant StrEnd(src, j) == StrEnd(src, start)
        decreases |src| - j
      {
        if At(src, j) == '"' {
          break;
        }
        if At(src, j) == '\0' {
          return j, Some(UnclosedString);
        }
        j := j + 1;
      }
      AddTk(String, Extract(src, start, j));
      j := j + 1;
      err := None;
    }

    /** A keyword or an identifier: the maximal run of letters, digits and '_'. */
    method ScanWord(src: string, i: nat) returns (j: nat)
      requires i < |src| && (IsAlpha(src[i]) || src[i] == '_')
      modifies this
      ensures line == old(line)
      ensures |tokens| == |old(tokens)| + 1 && tokens[..|old(tokens)|] == old(tokens)
      ensures StepAt(src, i, line) == Emit(tokens[|tokens| - 1], j)
    {
      var start := i;
      j := i + 1;
      while IsIdentChar(At(src, j))
        invariant start < j <= |src|
        invariant IdentEnd(src, j) == IdentEnd(src, start + 1)
        decreases |src| - j
      {
        j := j + 1;
      }
      var text := Extract(src, start, j);
      var kw := Keyword(text);
      if kw.Some? {
        AddTk(kw.value, "");
      } else {
        AddTk(Id, text);
      }
    }

    /** An INT or DOUBLE literal, with the checks of the number loop. */
    method ScanNumber(src: string, i: nat) returns (j: nat, err: Option<LexError>)
      requires i < |src| && IsDigit(src[i])
      modifies this
      ensures line == old(line)
      ensures err.Some? ==> StepAt(src, i, line) == Fail(err.value)
      ensures err.None? ==> |tokens| == |old(tokens)| + 1 && tokens[..|old(tokens)|] == old(tokens)
      ensures err.None? ==> StepAt(src, i, line) == Emit(tokens[|tokens| - 1], j)
    {
      var start := i;
      j := i;
      var dot, exp := false, false;
      while InNumber(At(src, j))
        invariant start <= j <= |src|
        invariant NumberRun(src, j, dot, exp) == NumberRun(src, start, false, false)
        decreases |src| - j
      {
        var ch := At(src, j);
        if ch == '.' {
          if dot {
            return j, Some(TwoDots);
          }
          if !IsDigit(At(src, j + 1)) {
            return j, Some(NoDigitAfterDot);
          }
          dot := true;
        }
        if IsExponent(ch) {
          if exp {
            return j, Some(TwoExponents);
          }
          if !IsDigit(At(src, j + 1)) && At(src, j + 1) != '+' && At(src, j + 1) != '-' {
            return j, Some(NoDigitAfterExponent);
          }
          if At(src, j + 1) == '+' || At(src, j + 1) == '-' {
            if !IsDigit(At(src, j + 2)) {
              return j, Some(NoDigitAfterSign);
            }
          }
          exp := true;
        }
        j := j + 1;
      }
      var text := Extract(src, start, j);
      if dot || exp {
        AddTk(Double, text);
      } else {
        AddTk(Int, text);
      }
      err := None;
    }

    /** The operators: one character, or two when the lookahead completes one. */
    method ScanOperator(src: string, i: nat) returns (j: nat, err: Option<LexError>)
      requires i < |src| && (Punct(src[i]).Some? || src[i] in "!|<>=&")
      modifies this
      ensures line == old(line)
      ensures err.Some? ==> StepAt(src, i, line) == Fail(err.value)
      ensures err.None? ==> |tokens| == |old(tokens)| + 1 && tokens[..|old(tokens)|] == old(tokens)
      ensures err.None? ==> StepAt(src, i, line) == Emit(tokens[|tokens| - 1], j)
    {
      var c := src[i];
      if Punct(c).Some? {
        AddTk(Punct(c).value, "");
        return i + 1, None;
      }
      if c == '|' || c == '&' {
        if At(src, i + 1) != c {
          return i, Some(InvalidSymbol(c));
        }
        AddTk(if c == '|' then Or else And, "");
        return i + 2, None;
      }
      var code: Code;
      if At(src, i + 1) == '=' {
        code := if c == '!' then NotEq else if c == '<' then LessEq else if c == '>' then GreaterEq else Equal;
        j := i + 2;
      } else {
        code := if c == '!' then Not else if c == '<' then Less else if c == '>' then Greater else Assign;
        j := i + 1;
      }
      AddTk(code, "");
      err := None;
    }

    /**
     * tokenize: scans `src` to its terminator, appending to the list; the result
     * is the whole list, or the reason the scan stopped.
     */
    method Tokenize(src: string) returns (r: LexResult)
      modifies this
      ensures r == Prepend(old(tokens), Lex(src, 0, old(line)))
      ensures r.Lexed? ==> tokens == r.tokens
    {
      var i: nat := 0;
      while true
        invariant i <= |src|
        invariant Prepend(old(tokens), Lex(src, 0, old(line))) == Prepend(tokens, Lex(src, i, line))
        decreases |src| - i
      {
        var c := At(src, i);
        ghost var i0, line0, tokens0 := i, line, tokens;
        var err: Option<LexError> := None;
        if c == ' ' || c == '\t' {
          i := i + 1;
          SkipAdvances(tokens, src, i0, line0, i, line);
          continue;
        } else if c == '\r' || c == '\n' {
          if c == '\r' && At(src, i + 1) == '\n' {
            i := i + 1;
          }
          line := line + 1;
          i := i + 1;
          SkipAdvances(tokens, src, i0, line0, i, line);
          continue;
        } else if c == '\0' {
          AddTk(End, "");
          return Lexed(tokens);
        } else if c == '/' && At(src, i + 1) == '/' {
          while At(src, i) != '\0' && At(src, i) != '\n'
            invariant i0 <= i <= |src|
            invariant LineEnd(src, i) == LineEnd(src, i0)
            decreases |src| - i
          {
            i := i + 1;
          }
          SkipAdvances(tokens, src, i0, line0, i, line);
          continue;
        } else if c == '/' {
          AddTk(Div, "");
          i := i + 1;
        } else if Punct(c).Some? || c in "!|<>=&" {
          i, err := ScanOperator(src, i);
        } else if c == '\'' {
          i, err := ScanChar(src, i);
        } else if c == '"' {
          i, err := ScanString(src, i);
        } else if IsAlpha(c) || c == '_' {
          i := ScanWord(src, i);
        } else if IsDigit(c) {
          i, err := ScanNumber(src, i);
        } else {
          err := Some(InvalidChar(c));
        }
        if err.Some? {
          FailStops(tokens0, src, i0, line, err.value);
          return Failed(err.value);
        }
        OneAppended(tokens0, tokens);
        EmitAdvances(tokens0, src, i0, line, tokens[|tokens| - 1], i);
      }
    }
  }
}
