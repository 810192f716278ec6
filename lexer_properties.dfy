/** What the scanner of lexer.c guarantees about the token list it builds. */
module LexerProperties {
  import opened Tokens
  import opened Lexer

  predicate IsSign(c: char) { c == '+' || c == '-' }

  predicate HasExponent(t: string) { 'e' in t || 'E' in t }

  /** What may follow an exponent at index k of t: a digit, or a sign and a digit. */
  predicate ExponentFollowed(t: string, k: nat)
    requires k < |t|
  {
    k + 1 < |t| && (IsDigit(t[k + 1]) || (IsSign(t[k + 1]) && k + 2 < |t| && IsDigit(t[k + 2])))
  }

  predicate AtMostOneDot(t: string)
  {
    forall k, m :: 0 <= k < m < |t| ==> !(t[k] == '.' && t[m] == '.')
  }

  predicate AtMostOneExponent(t: string)
  {
    forall k, m :: 0 <= k < m < |t| ==> !(IsExponent(t[k]) && IsExponent(t[m]))
  }

  /**
   * The format the number loop enforces on the text it accepts: only digits,
   * '.', exponents and signs; at most one '.', and it is followed by a digit;
   * at most one exponent, followed by a digit or by a sign and a digit.
   */
  predicate ValidNumber(t: string)
  {
    && (forall k :: 0 <= k < |t| ==> InNumber(t[k]))
    && AtMostOneDot(t)
    && AtMostOneExponent(t)
    && (forall k :: 0 <= k < |t| && t[k] == '.' ==> k + 1 < |t| && IsDigit(t[k + 1]))
    && (forall k :: 0 <= k < |t| && IsExponent(t[k]) ==> ExponentFollowed(t, k))
  }

  predicate IsIdentifier(t: string)
  {
    |t| > 0 && (IsAlpha(t[0]) || t[0] == '_') && forall k :: 0 < k < |t| ==> IsIdentChar(t[k])
  }

  /** What a token's text is, by code. */
  predicate WellFormed(tk: Token)
  {
    match tk.code
    case Id => IsIdentifier(tk.text) && Keyword(tk.text).None?
    case Int => |tk.text| > 0 && IsDigit(tk.text[0]) && ValidNumber(tk.text) && '.' !in tk.text && !HasExponent(tk.text)
    case Double => |tk.text| > 0 && IsDigit(tk.text[0]) && ValidNumber(tk.text) && ('.' in tk.text || HasExponent(tk.text))
    case String => '"' !in tk.text && '\0' !in tk.text
    case Char => |tk.text| == 1
    case _ => tk.text == ""
  }

  lemma OneDotCons(t: string)
    requires |t| > 0 && AtMostOneDot(t[1..])
    requires t[0] == '.' ==> '.' !in t[1..]
    ensures AtMostOneDot(t)
  {
    var u := t[1..];
    forall k, m | 0 <= k < m < |t| ensures !(t[k] == '.' && t[m] == '.') {
      assert t[m] == u[m - 1];
      if k > 0 {
        assert t[k] == u[k - 1];
      }
    }
  }

  lemma OneExponentCons(t: string)
    requires |t| > 0 && AtMostOneExponent(t[1..])
    requires IsExponent(t[0]) ==> !HasExponent(t[1..])
    ensures AtMostOneExponent(t)
  {
    var u := t[1..];
    forall k, m | 0 <= k < m < |t| ensures !(IsExponent(t[k]) && IsExponent(t[m])) {
      assert t[m] == u[m - 1];
      if k > 0 {
        assert t[k] == u[k - 1];
      } else {
        assert t[m] in u;
      }
    }
  }

  lemma ExponentFollowedCons(t: string, k: nat)
    requires 0 < k < |t| && ExponentFollowed(t[1..], k - 1)
    ensures ExponentFollowed(t, k)
  {
    var u := t[1..];
    assert t[k + 1] == u[k];
    if k + 2 < |t| {
      assert t[k + 2] == u[k + 1];
    }
  }

  /** A valid number text stays valid when an admissible character is put in front. */
  lemma ValidNumberCons(t: string)
    requires |t| > 0 && InNumber(t[0]) && ValidNumber(t[1..])
    requires t[0] == '.' ==> '.' !in t[1..] && |t| > 1 && IsDigit(t[1])
    requires IsExponent(t[0]) ==> !HasExponent(t[1..]) && ExponentFollowed(t, 0)
    ensures ValidNumber(t)
  {
    var u := t[1..];
    OneDotCons(t);
    OneExponentCons(t);
    forall k | 0 <= k < |t| ensures InNumber(t[k]) {
      if k > 0 {
        assert t[k] == u[k - 1];
      }
    }
    forall k | 0 <= k < |t| && t[k] == '.' ensures k + 1 < |t| && IsDigit(t[k + 1]) {
      if k > 0 {
        assert t[k] == u[k - 1];
      }
    }
    forall k | 0 <= k < |t| && IsExponent(t[k]) ensures ExponentFollowed(t, k) {
      if k > 0 {
        assert t[k] == u[k - 1];
        ExponentFollowedCons(t, k);
      }
    }
  }

  /**
   * The number loop accepts only valid number text, and its flags record
   * whether a '.' or an exponent was met in that text.
   */
  lemma {:induction false} NumberRunSound(src: string, i: nat, d: bool, e: bool)
    requires i <= |src| && NumberRun(src, i, d, e).NumEnd?
    ensures var r := NumberRun(src, i, d, e); var t := src[i..r.end];
      && r.dot == (d || '.' in t) && r.exp == (e || HasExponent(t))
      && (d ==> '.' !in t) && (e ==> !HasExponent(t))
      && ValidNumber(t)
    decreases |src| - i
  {
    var r := NumberRun(src, i, d, e);
    var c := At(src, i);
    if InNumber(c) {
      var d', e' := d || c == '.', e || IsExponent(c);
      assert NumberRun(src, i, d, e) == NumberRun(src, i + 1, d', e');
      NumberRunSound(src, i + 1, d', e');
      var t := src[i..r.end];
      assert t[1..] == src[i + 1..r.end];
      if c == '.' {
        assert InNumber(src[i + 1]);
      }
      if IsExponent(c) && IsSign(At(src, i + 1)) {
        assert InNumber(src[i + 1]) && InNumber(src[i + 2]);
      } else if IsExponent(c) {
        assert InNumber(src[i + 1]);
      }
      ValidNumberCons(t);
    } else {
      assert src[i..r.end] == [];
    }
  }

  /** A string literal's text is what lies between the quotes, which holds no quote and no NUL. */
  lemma StringStepWellFormed(src: string, i: nat, line: int)
    requires i <= |src| && At(src, i) == '"' && StepAt(src, i, line).Emit?
    ensures StepAt(src, i, line).tk.line == line && StepAt(src, i, line).tk.code == String
    ensures WellFormed(StepAt(src, i, line).tk)
  {
    var j := StrEnd(src, i + 1);
    var t := src[i + 1..j];
    assert forall k :: 0 <= k < |t| ==> t[k] == src[i + 1 + k];
  }

  /** A word is an identifier, or else a keyword with no text. */
  lemma WordStepWellFormed(src: string, i: nat, line: int)
    requires i <= |src| && (IsAlpha(At(src, i)) || At(src, i) == '_')
    ensures StepAt(src, i, line).Emit?
    ensures StepAt(src, i, line).tk.line == line && StepAt(src, i, line).tk.code != End
    ensures WellFormed(StepAt(src, i, line).tk)
  {
    var j := IdentEnd(src, i + 1);
    var t := src[i..j];
    assert forall k :: 0 < k < |t| ==> t[k] == src[i + k];
  }

  /** Each turn of the scanner that appends a token appends a well-formed one, on the current line. */
  lemma StepWellFormed(src: string, i: nat, line: int)
    requires i <= |src| && StepAt(src, i, line).Emit?
    ensures StepAt(src, i, line).tk.line == line
    ensures StepAt(src, i, line).tk.code != End
    ensures WellFormed(StepAt(src, i, line).tk)
  {
    var c := At(src, i);
    if c == '"' {
      StringStepWellFormed(src, i, line);
    } else if IsAlpha(c) || c == '_' {
      WordStepWellFormed(src, i, line);
    } else if IsDigit(c) && Punct(c).None? {
      NumberRunSound(src, i, false, false);
    }
  }

  /** tokenize appends exactly one END, as the last token. */
  lemma {:induction false} LexEndsWithEnd(src: string, i: nat, line: int)
    requires i <= |src| && Lex(src, i, line).Lexed?
    ensures var ts := Lex(src, i, line).tokens;
      |ts| > 0 && ts[|ts| - 1].code == End && forall k :: 0 <= k < |ts| - 1 ==> ts[k].code != End
    decreases |src| - i
  {
    match StepAt(src, i, line)
    case Stop =>
    case Skip(j, l) => LexEndsWithEnd(src, j, l);
    case Emit(tk, j) =>
      LexEndsWithEnd(src, j, line);
      StepWellFormed(src, i, line);
      var rest := Lex(src, j, line).tokens;
      assert Lex(src, i, line).tokens == [tk] + rest;
      EndStaysLast(tk, rest);
  }

  /** A token other than END put in front keeps END last and only there. */
  lemma EndStaysLast(tk: Token, rest: seq<Token>)
    requires tk.code != End
    requires |rest| > 0 && rest[|rest| - 1].code == End
    requires forall k :: 0 <= k < |rest| - 1 ==> rest[k].code != End
    ensures var ts := [tk] + rest;
      |ts| > 0 && ts[|ts| - 1].code == End && forall k :: 0 <= k < |ts| - 1 ==> ts[k].code != End
  {
    var ts := [tk] + rest;
    forall k | 0 <= k < |ts| - 1
      ensures ts[k].code != End
    {
      if k > 0 {
        assert ts[k] == rest[k - 1];
      }
    }
  }

  /** Every token before END is well formed for its code. */
  lemma {:induction false} LexTokensWellFormed(src: string, i: nat, line: int)
    requires i <= |src| && Lex(src, i, line).Lexed?
    ensures var ts := Lex(src, i, line).tokens;
      forall k :: 0 <= k < |ts| ==> WellFormed(ts[k])
    decreases |src| - i
  {
    match StepAt(src, i, line)
    case Stop =>
    case Skip(j, l) => LexTokensWellFormed(src, j, l);
    case Emit(tk, j) =>
      LexTokensWellFormed(src, j, line);
      StepWellFormed(src, i, line);
      var rest := Lex(src, j, line).tokens;
      assert Lex(src, i, line).tokens == [tk] + rest;
  }

  /** Tokens are appended in source order: each records the current line, which never goes back. */
  lemma {:induction false} LexLinesInOrder(src: string, i: nat, line: int)
    requires i <= |src| && Lex(src, i, line).Lexed?
    ensures var ts := Lex(src, i, line).tokens;
      && (forall k :: 0 <= k < |ts| ==> line <= ts[k].line)
      && (forall k, m :: 0 <= k < m < |ts| ==> ts[k].line <= ts[m].line)
    decreases |src| - i
  {
    match StepAt(src, i, line)
    case Stop =>
    case Skip(j, l) =>
      LexLinesInOrder(src, j, l);
      assert line <= l;
    case Emit(tk, j) =>
      LexLinesInOrder(src, j, line);
      StepWellFormed(src, i, line);
      var rest := Lex(src, j, line).tokens;
      assert Lex(src, i, line).tokens == [tk] + rest;
      LinesStayInOrder(tk, rest, line);
  }

  /** A token on line `line` put in front of tokens from that line on keeps the lines in order. */
  lemma LinesStayInOrder(tk: Token, rest: seq<Token>, line: int)
    requires line <= tk.line
    requires forall k :: 0 <= k < |rest| ==> tk.line <= rest[k].line
    requires forall k, m :: 0 <= k < m < |rest| ==> rest[k].line <= rest[m].line
    ensures var ts := [tk] + rest;
      && (forall k :: 0 <= k < |ts| ==> line <= ts[k].line)
      && (forall k, m :: 0 <= k < m < |ts| ==> ts[k].line <= ts[m].line)
  {
    var ts := [tk] + rest;
    forall k, m | 0 <= k < m < |ts| ensures ts[k].line <= ts[m].line {
      assert ts[m] == rest[m - 1];
      if k > 0 {
        assert ts[k] == rest[k - 1];
      }
    }
  }

  /** "\r\n", a lone '\r' and a lone '\n' each advance the line counter once and emit nothing. */
  lemma NewlinesCountOnce(src: string, i: nat, line: int)
    requires i <= |src|
    ensures At(src, i) == '\r' && At(src, i + 1) == '\n' ==> Lex(src, i, line) == Lex(src, i + 2, line + 1)
    ensures At(src, i) == '\r' && At(src, i + 1) != '\n' ==> Lex(src, i, line) == Lex(src, i + 1, line + 1)
    ensures At(src, i) == '\n' ==> Lex(src, i, line) == Lex(src, i + 1, line + 1)
  {
  }

  /**
   * "<=", ">=", "==", "!=", "&&" and "||" are one token each; without the second
   * character '<', '>', '=' and '!' stand alone and '&', '|' are errors.
   */
  lemma TwoCharOperators(src: string, i: nat, line: int)
    requires i + 1 <= |src|
    ensures At(src, i) in "<>=!" && At(src, i + 1) == '=' ==>
      Lex(src, i, line) == Cons(Token(
        if At(src, i) == '<' then LessEq else if At(src, i) == '>' then GreaterEq
        else if At(src, i) == '=' then Equal else NotEq, line, ""), Lex(src, i + 2, line))
    ensures At(src, i) in "<>=!" && At(src, i + 1) != '=' ==>
      Lex(src, i, line) == Cons(Token(
        if At(src, i) == '<' then Less else if At(src, i) == '>' then Greater
        else if At(src, i) == '=' then Assign else Not, line, ""), Lex(src, i + 1, line))
    ensures At(src, i) in "&|" && At(src, i + 1) == At(src, i) ==>
      Lex(src, i, line) == Cons(Token(if At(src, i) == '&' then And else Or, line, ""), Lex(src, i + 2, line))
    ensures At(src, i) in "&|" && At(src, i + 1) != At(src, i) ==>
      Lex(src, i, line) == Failed(InvalidSymbol(At(src, i)))
  {
    var c := At(src, i);
    if c in "<>=!&|" {
      assert Punct(c).None?;
      if c == '<' || c == '>' {
        assert StepAt(src, i, line).Emit?;
      } else if c == '=' || c == '!' {
        assert StepAt(src, i, line).Emit?;
      } else {
        assert StepAt(src, i, line).Emit? <==> At(src, i + 1) == c;
      }
    }
  }

  /** "//" skips to the newline, not past it, and emits nothing; a single '/' is DIV. */
  lemma Comments(src: string, i: nat, line: int)
    requires i < |src| && src[i] == '/'
    ensures At(src, i + 1) == '/' ==> Lex(src, i, line) == Lex(src, LineEnd(src, i), line)
    ensures At(src, i + 1) != '/' ==> Lex(src, i, line) == Cons(Token(Div, line, ""), Lex(src, i + 1, line))
  {
  }

  /** A word is the maximal identifier run; a keyword gets its code, anything else is ID with that text. */
  lemma Words(src: string, i: nat, line: int)
    requires i < |src| && (IsAlpha(src[i]) || src[i] == '_')
    ensures var j := IdentEnd(src, i + 1); var text := src[i..j];
      && !IsIdentChar(At(src, j))
      && Lex(src, i, line) == Cons(
           if Keyword(text).Some? then Token(Keyword(text).value, line, "") else Token(Id, line, text),
           Lex(src, j, line))
  {
    var j := IdentEnd(src, i + 1);
    var text := src[i..j];
    var tk := if Keyword(text).Some? then Token(Keyword(text).value, line, "") else Token(Id, line, text);
    assert StepAt(src, i, line) == Emit(tk, j);
  }

  /** The eleven keywords are exactly the words with a code of their own. */
  lemma KeywordsAreEleven(text: string)
    ensures Keyword(text).Some? <==>
      text in ["char", "int", "double", "while", "if", "for", "break", "else", "struct", "return", "void"]
  {
  }

  /** A number is DOUBLE iff a '.' or an exponent was met in its run, otherwise INT. */
  lemma NumberKind(src: string, i: nat, line: int)
    requires i < |src| && IsDigit(src[i])
    requires NumberRun(src, i, false, false).NumEnd?
    ensures var j := NumberRun(src, i, false, false).end; var text := src[i..j];
      Lex(src, i, line) == Cons(
        Token(if '.' in text || HasExponent(text) then Double else Int, line, text), Lex(src, j, line))
  {
    NumberRunSound(src, i, false, false);
    var r := NumberRun(src, i, false, false);
    var text := src[i..r.end];
    assert StepAt(src, i, line) == Emit(Token(if r.dot || r.exp then Double else Int, line, text), r.end);
  }

  /** Character and string literals. */
  lemma Literals(src: string, i: nat, line: int)
    requires i < |src|
    ensures src[i] == '\'' && At(src, i + 1) == '\'' ==> Lex(src, i, line) == Failed(EmptyChar)
    ensures src[i] == '\'' && At(src, i + 1) != '\'' && At(src, i + 2) != '\'' ==>
      Lex(src, i, line) == Failed(UnclosedChar)
    ensures src[i] == '\'' && At(src, i + 1) != '\'' && At(src, i + 2) == '\'' ==>
      Lex(src, i, line) == Cons(Token(Char, line, [src[i + 1]]), Lex(src, i + 3, line))
    ensures src[i] == '"' && At(src, StrEnd(src, i + 1)) == '\0' ==> Lex(src, i, line) == Failed(UnclosedString)
    ensures src[i] == '"' && At(src, StrEnd(src, i + 1)) == '"' ==>
      Lex(src, i, line) == Cons(Token(String, line, src[i + 1..StrEnd(src, i + 1)]), Lex(src, StrEnd(src, i + 1) + 1, line))
  {
  }

  /** Signs are taken anywhere inside a number: "5-3" is one INT token, not a subtraction. */
  lemma SignInsideNumber()
    ensures Lex("5-3", 0, 1) == Lexed([Token(Int, 1, "5-3"), Token(End, 1, "")])
  {
    var src := "5-3";
    assert NumberRun(src, 3, false, false) == NumEnd(3, false, false);
    assert NumberRun(src, 2, false, false) == NumEnd(3, false, false);
    assert NumberRun(src, 1, false, false) == NumEnd(3, false, false);
    assert NumberRun(src, 0, false, false) == NumEnd(3, false, false);
    assert StepAt(src, 3, 1) == Stop;
    assert StepAt(src, 0, 1) == Emit(Token(Int, 1, "5-3"), 3);
    assert Lex(src, 0, 1) == Cons(Token(Int, 1, "5-3"), Lex(src, 3, 1));
  }

  lemma TwoCharOperatorExample()
    ensures Lex("a<=b", 0, 1) == Lexed([Token(Id, 1, "a"), Token(LessEq, 1, ""), Token(Id, 1, "b"), Token(End, 1, "")])
  {
    var src := "a<=b";
    assert IdentEnd(src, 4) == 4;
    assert IdentEnd(src, 1) == 1;
    assert src[3..4] == "b" && src[0..1] == "a";
    LexAtEnd(src, 1);
    assert StepAt(src, 3, 1) == Emit(Token(Id, 1, "b"), 4);
    assert StepAt(src, 1, 1) == Emit(Token(LessEq, 1, ""), 3);
    assert StepAt(src, 0, 1) == Emit(Token(Id, 1, "a"), 1);
    assert [Token(Id, 1, "a")] + ([Token(LessEq, 1, "")] + ([Token(Id, 1, "b")] + [Token(End, 1, "")]))
      == [Token(Id, 1, "a"), Token(LessEq, 1, ""), Token(Id, 1, "b"), Token(End, 1, "")];
  }

  lemma NoDigitAfterDotExample()
    ensures Lex("3.", 0, 1) == Failed(NoDigitAfterDot)
  {
    assert NumberRun("3.", 1, false, false) == NumFail(NoDigitAfterDot);
    assert NumberRun("3.", 0, false, false) == NumFail(NoDigitAfterDot);
    assert StepAt("3.", 0, 1) == Fail(NoDigitAfterDot);
  }

  lemma TwoDotsExample()
    ensures Lex("3.1.2", 0, 1) == Failed(TwoDots)
  {
    var src := "3.1.2";
    assert NumberRun(src, 3, true, false) == NumFail(TwoDots);
    assert NumberRun(src, 2, true, false) == NumFail(TwoDots);
    assert NumberRun(src, 1, false, false) == NumFail(TwoDots);
    assert NumberRun(src, 0, false, false) == NumFail(TwoDots);
    assert StepAt(src, 0, 1) == Fail(TwoDots);
  }

  lemma ExponentErrorExamples()
    ensures Lex("1e", 0, 1) == Failed(NoDigitAfterExponent)
    ensures Lex("1e+", 0, 1) == Failed(NoDigitAfterSign)
  {
    assert NumberRun("1e", 1, false, false) == NumFail(NoDigitAfterExponent);
    assert NumberRun("1e", 0, false, false) == NumFail(NoDigitAfterExponent);
    assert StepAt("1e", 0, 1) == Fail(NoDigitAfterExponent);
    assert NumberRun("1e+", 1, false, false) == NumFail(NoDigitAfterSign);
    assert NumberRun("1e+", 0, false, false) == NumFail(NoDigitAfterSign);
    assert StepAt("1e+", 0, 1) == Fail(NoDigitAfterSign);
  }

  lemma LoneAmpersandExample()
    ensures Lex("x & y", 0, 1) == Failed(InvalidSymbol('&'))
  {
    var src := "x & y";
    assert StepAt(src, 2, 1) == Fail(InvalidSymbol('&'));
    assert StepAt(src, 1, 1) == Skip(2, 1);
    assert IdentEnd(src, 1) == 1;
    assert StepAt(src, 0, 1) == Emit(Token(Id, 1, "x"), 1);
  }

  lemma DoubleExample()
    ensures Lex("3.14e2", 0, 1) == Lexed([Token(Double, 1, "3.14e2"), Token(End, 1, "")])
  {
    var src := "3.14e2";
    assert src[0..6] == src && src[1] == '.';
    DoubleExampleRun();
    NumberKind(src, 0, 1);
    LexAtEnd(src, 1);
    assert [Token(Double, 1, src)] + [Token(End, 1, "")] == [Token(Double, 1, src), Token(End, 1, "")];
  }

  /** At the end of the text the scan adds END and stops. */
  lemma LexAtEnd(src: string, line: int)
    ensures Lex(src, |src|, line) == Lexed([Token(End, line, "")])
  {
  }

  /** The number loop over "3.14e2" runs to its end and meets a '.' and an exponent. */
  lemma DoubleExampleRun()
    ensures NumberRun("3.14e2", 0, false, false) == NumEnd(6, true, true)
  {
    var src := "3.14e2";
    assert NumberRun(src, 6, true, true) == NumEnd(6, true, true);
    assert NumberRun(src, 5, true, true) == NumEnd(6, true, true);
    assert NumberRun(src, 4, true, false) == NumEnd(6, true, true);
    assert NumberRun(src, 3, true, false) == NumEnd(6, true, true);
    assert NumberRun(src, 2, true, false) == NumEnd(6, true, true);
    assert NumberRun(src, 1, false, false) == NumEnd(6, true, true);
    assert NumberRun(src, 0, false, false) == NumEnd(6, true, true);
  }

  lemma LineExample()
    ensures Lex("a\r\nb", 0, 1) == Lexed([Token(Id, 1, "a"), Token(Id, 2, "b"), Token(End, 2, "")])
  {
    var src := "a\r\nb";
    assert IdentEnd(src, 4) == 4;
    assert IdentEnd(src, 1) == 1;
    assert src[3..4] == "b" && src[0..1] == "a";
    LexAtEnd(src, 2);
    assert StepAt(src, 3, 2) == Emit(Token(Id, 2, "b"), 4);
    assert StepAt(src, 1, 1) == Skip(3, 2);
    assert StepAt(src, 0, 1) == Emit(Token(Id, 1, "a"), 1);
    assert [Token(Id, 1, "a")] + ([Token(Id, 2, "b")] + [Token(End, 2, "")])
      == [Token(Id, 1, "a"), Token(Id, 2, "b"), Token(End, 2, "")];
  }
}
