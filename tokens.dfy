/** Token codes and tokens shared by the lexer and the parser (lexer.h). */
module Tokens {

  datatype Option<+T> = None | Some(value: T)

  /** The token codes, in the order of the enumeration in lexer.h. */
  datatype Code =
    | Id | Int | Double | String | Char
    | TypeChar | TypeInt | TypeDouble | Struct | Void
    | Comma | End | Semicolon | Return
    | Assign | Equal | Less | Div | Add | And | Mul | For | Break | Sub | Or | Not
    | NotEq | LessEq | Greater | GreaterEq | LPar | RPar | LAcc | RAcc
    | LBracket | RBracket | While | If | Else | Dot

  /**
   * A token: its code, the line it was found on, and its payload as text.
   * `text` holds the characters of an ID or STRING, the literal's source text for
   * INT and DOUBLE, the one character of a CHAR, and is empty for every other code.
   */
  datatype Token = Token(code: Code, line: int, text: string)

  predicate IsDigit(c: char) { '0' <= c <= '9' }

  /** The length of the run of decimal digits at the front of `s`. */
  function DigitRun(s: string): (k: nat)
    ensures k <= |s|
    ensures forall j :: 0 <= j < k ==> IsDigit(s[j])
    ensures k < |s| ==> !IsDigit(s[k])
  {
    if s == [] || !IsDigit(s[0]) then 0 else 1 + DigitRun(s[1..])
  }

  /** The value of a string of decimal digits, most significant first. */
  function DigitsValue(d: string): (v: nat)
    requires forall j :: 0 <= j < |d| ==> IsDigit(d[j])
  {
    if d == [] then 0
    else
      assert IsDigit(d[|d| - 1]);
      DigitsValue(d[..|d| - 1]) * 10 + (d[|d| - 1] as int - '0' as int)
  }

  /**
   * What `atoi` yields for the text of an INT token: the value of the leading
   * run of digits (an INT token's text always starts with a digit).
   */
  function Atoi(s: string): nat
  {
    DigitsValue(s[..DigitRun(s)])
  }

  /** Atoi reads exactly the leading digits: whatever follows them is ignored. */
  lemma {:induction false} AtoiIgnoresTail(d: string, tail: string)
    requires forall j :: 0 <= j < |d| ==> IsDigit(d[j])
    requires tail == [] || !IsDigit(tail[0])
    ensures Atoi(d + tail) == DigitsValue(d)
  {
    DigitRunOfDigits(d, tail);
    assert (d + tail)[..|d|] == d;
  }

  lemma {:induction false} DigitRunOfDigits(d: string, tail: string)
    requires forall j :: 0 <= j < |d| ==> IsDigit(d[j])
    requires tail == [] || !IsDigit(tail[0])
    ensures DigitRun(d + tail) == |d|
  {
    if d != [] {
      assert (d + tail)[1..] == d[1..] + tail;
      DigitRunOfDigits(d[1..], tail);
    } else {
      assert d + tail == tail;
    }
  }
}
