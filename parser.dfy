/**
 * The recursive-descent parser of parser.c with its domain analysis.
 *
 * Every matcher is a method of `Parser`. Its outcome is `Ok(true)` when it
 * recognised its rule, `Ok(false)` when it did not (and then the cursor is
 * back where it started), or `Fatal(line, diag)` where parser.c calls `tkerr`,
 * which reports the line of the current token and ends the process.
 */
module Parser {
  import opened Tokens
  import opened Ad
  import opened Scopes
  import opened Lexer
  import opened LexerProperties

  /** Why `tkerr` was called. */
  datatype Diag =
    | Missing(code: Code)            // a required token is absent: ";", ")", "]", "}", "("
    | MissingName                    // no identifier after `struct`, a type or a function's type
    | MissingExprAfter(code: Code)   // no operand after this operator or punctuation
    | MissingCondition               // `if (` or `while (` without an expression
    | MissingBranch                  // `if`, `else` or `while` without a statement
    | MissingParam                   // no parameter after ',' in a function definition
    | Redefinition(name: string)
    | UndefinedStruct(name: string)
    | ArrayWithoutSize               // a variable declared with `[]`
    | NotScalar                      // a condition or returned value that cannot be a scalar
    | VoidReturnsValue
    | NotConvertible
    | MissingReturnValue
    | SyntaxError                    // the whole unit was not recognised up to END

  /** The outcome of a matcher; a `Fatal` one propagates through `:-` as `tkerr` ends the run. */
  datatype Outcome = Ok(matched: bool) | Fatal(line: int, diag: Diag)
  {
    predicate IsFailure() { Fatal? }

    function PropagateFailure(): Outcome
      requires Fatal?
    {
      this
    }

    function Extract(): bool
      requires Ok?
    {
      matched
    }
  }

  /** A token list as the lexer delivers it: END once, as the last token. */
  predicate TokensOk(ts: seq<Token>)
  {
    |ts| > 0 && if |ts| == 1 then ts[0].code == End else ts[0].code != End && TokensOk(ts[1..])
  }

  /** In such a list a token is END exactly when it is the last one. */
  lemma {:induction false} EndIsLast(ts: seq<Token>, k: nat)
    requires TokensOk(ts) && k < |ts|
    ensures ts[k].code == End <==> k == |ts| - 1
  {
    if k > 0 {
      EndIsLast(ts[1..], k - 1);
    }
  }

  /** A list whose only END is its last token is one. */
  lemma {:induction false} TokensOkIntro(ts: seq<Token>)
    requires |ts| > 0 && ts[|ts| - 1].code == End
    requires forall k :: 0 <= k < |ts| - 1 ==> ts[k].code != End
    ensures TokensOk(ts)
  {
    if |ts| > 1 {
      var rest := ts[1..];
      forall k | 0 <= k < |rest| - 1 ensures rest[k].code != End {
        assert rest[k] == ts[k + 1];
      }
      TokensOkIntro(rest);
    }
  }

  /** What the lexer delivers is what the parser expects. */
  lemma LexedTokensOk(src: string)
    requires Lex(src, 0, 1).Lexed?
    ensures TokensOk(Lex(src, 0, 1).tokens)
  {
    LexEndsWithEnd(src, 0, 1);
    TokensOkIntro(Lex(src, 0, 1).tokens);
  }

  /** `b` is `a` with one more symbol at the tail of the current domain, and nothing else changed. */
  predicate AddedToCurrent(a: seq<seq<Symbol>>, b: seq<seq<Symbol>>)
  {
    && |a| == |b| && |a| > 0
    && b[..|b| - 1] == a[..|a| - 1]
    && |b[|b| - 1]| == |a[|a| - 1]| + 1
    && b[|b| - 1][..|a[|a| - 1]|] == a[|a| - 1]
  }

  /** The last symbol of the current domain. */
  function Added(b: seq<seq<Symbol>>): Symbol
    requires |b| > 0 && |b[|b| - 1]| > 0
  {
    b[|b| - 1][|b[|b| - 1]| - 1]
  }

  /**
   * `b` is `a` after a struct definition: one new struct in the current
   * domain, of type `struct` with its own name, `n` -1, and its members laid
   * out one after the other.
   */
  predicate StructAdded(a: seq<seq<Symbol>>, b: seq<seq<Symbol>>)
  {
    && AddedToCurrent(a, b)
    && var s := Added(b);
       && s.kind == SkStruct && FindInList(a[|a| - 1], s.name).None?
       && s.ty.n == -1 && s.ty.tb.TbStruct? && s.ty.tb.name == s.name
       && MemberOffsets(s.ty.tb.members)
  }

  /**
   * `b` is `a` after a function definition: one new function in the current
   * domain, whose locals and parameters are numbered by position.
   */
  predicate FnAdded(a: seq<seq<Symbol>>, b: seq<seq<Symbol>>)
  {
    && AddedToCurrent(a, b)
    && var fn := Added(b);
       && fn.kind == SkFn && FindInList(a[|a| - 1], fn.name).None?
       && LocalsIndexed(fn) && ParamsIndexed(fn)
  }

  /** `a` with `s` appended to its current domain, as addSymbolToDomain leaves it. */
  function WithTail(a: seq<seq<Symbol>>, s: Symbol): (b: seq<seq<Symbol>>)
    requires |a| > 0
    ensures |b| == |a| && Holds(b, TailRef(a)) && SymAt(b, TailRef(a)) == s
    ensures b[..|b| - 1] == a[..|a| - 1]
  {
    a[..|a| - 1] + [a[|a| - 1] + [s]]
  }

  /** Where the symbol `WithTail(a, s)` appends sits. */
  function TailRef(a: seq<seq<Symbol>>): SymRef
    requires |a| > 0
  {
    SymRef(|a| - 1, |a[|a| - 1]|)
  }

  /** Once its body is done, an owner added by `WithTail` is the one symbol added to the current domain. */
  lemma CloseOwner(a: seq<seq<Symbol>>, s: Symbol, s': Symbol)
    requires |a| > 0
    ensures AddedToCurrent(a, Replace(WithTail(a, s), TailRef(a), s'))
    ensures Added(Replace(WithTail(a, s), TailRef(a), s')) == s'
  {
    var top := a[|a| - 1];
    assert (top + [s])[|top| := s'] == top + [s'];
    assert Replace(WithTail(a, s), TailRef(a), s') == WithTail(a, s');
  }

  /**
   * A new struct, given a domain of its own for its members, is once that
   * domain is dropped the one struct added to the current domain.
   */
  lemma StructClosed(a: seq<seq<Symbol>>, s: Symbol, cur: seq<seq<Symbol>>)
    requires |a| > 0 && FindInList(a[|a| - 1], s.name).None?
    requires s.kind == SkStruct && s.ty == Type(TbStruct(s.name, []), -1)
    requires DeclEvolved(WithTail(a, s) + [[]], cur, Some(TailRef(a)))
    ensures |cur| > 0 && StructAdded(a, cur[..|cur| - 1]) && Added(cur[..|cur| - 1]).name == s.name
  {
    var o := TailRef(a);
    DropOwnerDomain(WithTail(a, s), o, [], cur, true);
    CloseOwner(a, s, SymAt(cur, o));
  }

  /** The first codes of a type: `int`, `double`, `char`, or `struct` and a name. */
  predicate StartsType(c: Code, next: Code)
  {
    c == TypeInt || c == TypeDouble || c == TypeChar || (c == Struct && next == Id)
  }

  /** The first codes of a statement; `if` and `while` are only taken with their `(`. */
  predicate StartsStm(c: Code, next: Code)
  {
    StartsNested(c, next) || StartsSimple(c)
  }

  /** The first codes of a statement that holds another: a block, `if (` or `while (`. */
  predicate StartsNested(c: Code, next: Code)
  {
    c == LAcc || ((c == If || c == While) && next == LPar)
  }

  /** The first codes of a statement that ends in `;`: `return` or an expression. */
  predicate StartsSimple(c: Code)
  {
    c == Return || StartsExpr(c)
  }

  /** The codes an expression can start with: a unary operator or a primary. */
  predicate StartsPrimary(c: Code)
  {
    c == Id || c == Int || c == Double || c == Char || c == String || c == LPar
  }

  /** The relational operators of exprRel. */
  predicate IsRelOp(c: Code)
  {
    c == Less || c == LessEq || c == Greater || c == GreaterEq
  }

  predicate StartsExpr(c: Code)
  {
    c == Sub || c == Not || StartsPrimary(c)
  }

  /** A statement that starts with `{`, `if (` or `while (` is neither `return` nor an expression. */
  lemma NestedNotSimple(c: Code, next: Code)
    requires StartsNested(c, next)
    ensures !StartsSimple(c)
  {
  }

  class Parser {
    /** The token list; `tokens[pos]` is the token `iTk` points at. */
    const tokens: seq<Token>
    /** The domains of ad.c. */
    const st: SymTable
    /** The type-checking predicates, given the tokens of the expression they judge. */
    const canBeScalar: seq<Token> -> bool
    const convTo: (seq<Token>, Type) -> bool

    var pos: nat
    var consumed: Option<Token>
    var owner: Option<SymRef>

    /**
     * The cursor is on a token of a list whose only END is its last token,
     * as the lexer produces it.
     */
    ghost predicate CursorOk()
      reads this
    {
      TokensOk(tokens) && pos < |tokens|
    }

    /** The code at position k, END past the end. */
    function CodeAt(k: nat): Code
    {
      if k < |tokens| then tokens[k].code else End
    }

    /** The line of the token at position k, 0 past the end. */
    function LineAt(k: nat): int
    {
      if k < |tokens| then tokens[k].line else 0
    }

    /** The text of the token at position k, empty past the end. */
    function TextAt(k: nat): string
    {
      if k < |tokens| then tokens[k].text else ""
    }

    /** How many tokens the type starting at k takes: two for `struct ID`, one otherwise. */
    function TypeLen(k: nat): nat
    {
      if CodeAt(k) == Struct then 2 else 1
    }

    /**
     * The base of the type starting at k, once typeBase has matched there: a
     * struct is looked up innermost-first in `ds`.
     */
    function TypeAt(ds: seq<seq<Symbol>>, k: nat): TypeBase
    {
      match CodeAt(k)
      case TypeInt => TbInt
      case TypeDouble => TbDouble
      case TypeChar => TbChar
      case _ =>
        var s := FindInStack(ds, TextAt(k + 1));
        TbStruct(TextAt(k + 1), if s.Some? then Members(s.value) else [])
    }

    /**
     * The variable `v` was declared by the tokens from its name at `k` to
     * `end`: the ID there names it, its base is `tb`, an array part gives n
     * the INT's value and no array part gives -1, and `;` is the last token.
     */
    predicate VarFromTokens(k: nat, end: nat, v: Symbol, tb: TypeBase)
    {
      && CodeAt(k) == Id && v.name == TextAt(k) && v.ty.tb == tb
      && (CodeAt(k + 1) == LBracket ==> CodeAt(k + 2) == Int && v.ty.n == Atoi(TextAt(k + 2)))
      && (CodeAt(k + 1) != LBracket ==> v.ty.n == -1)
      && 0 < end && CodeAt(end - 1) == Semicolon
    }

    /**
     * Going from `a` to `b` added one function to the current domain, named
     * by the ID at `k`, which `(` follows, with type `t`.
     */
    predicate FnFromTokens(a: seq<seq<Symbol>>, b: seq<seq<Symbol>>, k: nat, t: Type)
    {
      && FnAdded(a, b) && CodeAt(k) == Id && CodeAt(k + 1) == LPar
      && Added(b).name == TextAt(k) && Added(b).ty == t
    }

    /**
     * The parameter `p` was declared by the tokens whose name is at `k`: the ID
     * there names it, its base is `tb`, and its n is the address size.
     */
    predicate ParamFromTokens(k: nat, p: Symbol, tb: TypeBase)
    {
      CodeAt(k) == Id && p.name == TextAt(k) && p.ty.tb == tb && p.ty.n == PointerSize
    }

    /** A function head `ID (` at `k` whose name is already in the domain `cur`. */
    predicate HeadRedefined(cur: seq<Symbol>, k: nat)
    {
      CodeAt(k) == Id && CodeAt(k + 1) == LPar && FindInList(cur, TextAt(k)).Some?
    }

    /** After `void`, the tokens at `k` are not `ID (`. */
    predicate VoidHeadBad(k: nat)
    {
      CodeAt(k) != Id || CodeAt(k + 1) != LPar
    }

    /** The fatal outcome `tkerr` gives at the current token. */
    function Fail(d: Diag): Outcome
      reads this
      requires pos < |tokens|
    {
      Fatal(tokens[pos].line, d)
    }

    constructor (tokens: seq<Token>, st: SymTable, canBeScalar: seq<Token> -> bool, convTo: (seq<Token>, Type) -> bool)
      ensures this.tokens == tokens && this.st == st
      ensures this.canBeScalar == canBeScalar && this.convTo == convTo
      ensures pos == 0 && consumed == None && owner == None
    {
      this.tokens := tokens;
      this.st := st;
      this.canBeScalar := canBeScalar;
      this.convTo := convTo;
      pos := 0;
      consumed := None;
      owner := None;
    }

    /** consume: on a matching code the token is recorded and the cursor steps over it. */
    method Consume(code: Code) returns (ok: bool)
      requires CursorOk()
      modifies this`pos, this`consumed
      ensures ok <==> old(tokens[pos].code) == code
      ensures ok ==> pos == old(pos) + 1 && consumed == Some(tokens[old(pos)])
      ensures !ok ==> pos == old(pos) && consumed == old(consumed)
      ensures code != End ==> CursorOk()
    {
      if tokens[pos].code == code {
        EndIsLast(tokens, pos);
        consumed := Some(tokens[pos]);
        pos := pos + 1;
        return true;
      }
      return false;
    }

    /**
     * typeBase: `int`, `double`, `char` or `struct ID` of a struct in scope;
     * `n` is always -1. After `struct` without a name the cursor is not
     * moved back.
     */
    method TypeBase() returns (r: Outcome, t: Type)
      requires CursorOk()
      modifies this`pos, this`consumed
      ensures CursorOk()
      ensures t.n == -1
      ensures r == Ok(false) <==> !StartsType(CodeAt(old(pos)), CodeAt(old(pos) + 1))
      ensures r == Ok(false) ==> pos == old(pos) + (if CodeAt(old(pos)) == Struct then 1 else 0)
      ensures r.Fatal? <==>
        CodeAt(old(pos)) == Struct && CodeAt(old(pos) + 1) == Id && FindInStack(st.domains, TextAt(old(pos) + 1)).None?
      ensures r.Fatal? ==> r == Fatal(LineAt(old(pos) + 2), UndefinedStruct(TextAt(old(pos) + 1)))
      ensures r == Ok(true) ==> pos == old(pos) + TypeLen(old(pos)) && t.tb == TypeAt(st.domains, old(pos))
      decreases |tokens| - pos, 2
    {
      var ok;
      ok, t := ScalarBase();
      if ok {
        return Ok(true), t;
      }
      r, t := StructBase();
    }

    /** The `int`, `double` and `char` arms of typeBase: one keyword token gives its base type. */
    method ScalarBase() returns (ok: bool, t: Type)
      requires CursorOk()
      modifies this`pos, this`consumed
      ensures CursorOk()
      ensures t.n == -1
      ensures ok <==> CodeAt(old(pos)) == TypeInt || CodeAt(old(pos)) == TypeDouble || CodeAt(old(pos)) == TypeChar
      ensures ok ==> pos == old(pos) + 1 && t.tb == TypeAt(st.domains, old(pos))
      ensures !ok ==> pos == old(pos)
    {
      t := Type(TbInt, -1);
      ok := Consume(TypeInt);
      if ok {
        return;
      }
      ok := Consume(TypeDouble);
      if ok {
        t := t.(tb := TbDouble);
        return;
      }
      ok := Consume(TypeChar);
      if ok {
        t := t.(tb := TbChar);
      }
    }

    /** The `struct ID` arm of typeBase; a `struct` without an ID does not match but stays consumed. */
    method StructBase() returns (r: Outcome, t: Type)
      requires CursorOk()
      modifies this`pos, this`consumed
      ensures CursorOk()
      ensures t.n == -1
      ensures r == Ok(false) <==> CodeAt(old(pos)) != Struct || CodeAt(old(pos) + 1) != Id
      ensures r == Ok(false) ==> pos == old(pos) + (if CodeAt(old(pos)) == Struct then 1 else 0)
      ensures r.Fatal? <==>
        CodeAt(old(pos)) == Struct && CodeAt(old(pos) + 1) == Id && FindInStack(st.domains, TextAt(old(pos) + 1)).None?
      ensures r.Fatal? ==> r == Fatal(LineAt(old(pos) + 2), UndefinedStruct(TextAt(old(pos) + 1)))
      ensures r == Ok(true) ==> pos == old(pos) + 2 && CodeAt(old(pos)) == Struct && t.tb == TypeAt(st.domains, old(pos))
    {
      var ok := Consume(Struct);
      if ok {
        r, t := StructType();
        return;
      }
      return Ok(false), Type(TbInt, -1);
    }

    /** `struct` read: the name of a struct in scope must follow, else typeBase does not match. */
    method StructType() returns (r: Outcome, t: Type)
      requires CursorOk()
      modifies this`pos, this`consumed
      ensures CursorOk()
      ensures t.n == -1
      ensures r == Ok(false) <==> CodeAt(old(pos)) != Id
      ensures r == Ok(false) ==> pos == old(pos)
      ensures r.Fatal? <==> CodeAt(old(pos)) == Id && FindInStack(st.domains, TextAt(old(pos))).None?
      ensures r.Fatal? ==> r == Fatal(LineAt(old(pos) + 1), UndefinedStruct(TextAt(old(pos))))
      ensures r == Ok(true) ==>
        var s := FindInStack(st.domains, TextAt(old(pos)));
        && pos == old(pos) + 1 && s.Some? && t.tb == TbStruct(TextAt(old(pos)), Members(s.value))
    {
      t := Type(TbInt, -1);
      var ok := Consume(Id);
      if ok {
        var name := tokens[pos - 1].text;
        var s := st.FindSymbol(name);
        if s.None? {
          return Fail(UndefinedStruct(name)), t;
        }
        t := t.(tb := TbStruct(name, Members(s.value)));
        return Ok(true), t;
      }
      return Ok(false), t;
    }

    /**
     * arrayDecl: `[` INT? `]`; the dimension is the INT's value, 0 when it is
     * left out. A missing `]` is fatal.
     */
    method ArrayDecl(t: Type) returns (r: Outcome, t': Type)
      requires CursorOk()
      modifies this`pos, this`consumed
      ensures CursorOk()
      ensures t'.tb == t.tb
      ensures r == Ok(false) <==> old(tokens[pos].code) != LBracket
      ensures r == Ok(false) ==> pos == old(pos) && t' == t
      ensures old(tokens[pos].code) == LBracket ==>
        old(pos) + 1 < |tokens| &&
        var sized := tokens[old(pos) + 1].code == Int;
        var close := if sized then old(pos) + 2 else old(pos) + 1;
        && close < |tokens|
        && (tokens[close].code == RBracket ==>
              r == Ok(true) && pos == close + 1 && t'.n == (if sized then Atoi(tokens[old(pos) + 1].text) else 0))
        && (tokens[close].code != RBracket ==> r == Fatal(tokens[close].line, Missing(RBracket)))
      decreases |tokens| - pos, 2
    {
      t' := t;
      var start := pos;
      var ok := Consume(LBracket);
      if ok {
        ok := Consume(Int);
        if ok {
          t' := t'.(n := Atoi(tokens[pos - 1].text));
        } else {
          t' := t'.(n := 0);
        }
        ok := Consume(RBracket);
        if ok {
          return Ok(true), t';
        }
        return Fail(Missing(RBracket)), t';
      }
      pos := start;
      return Ok(false), t';
    }

    // -------------------------------------------------------------------------
    // Expressions. None of them changes the domains. Each recognises its rule
    // exactly when the first token can start an expression; `Ok(false)` leaves
    // the cursor where it was and the `...Secondary` rules never fail.

    /** expr: an assignment expression. */
    method Expr() returns (r: Outcome)
      requires CursorOk()
      modifies this`pos, this`consumed
      ensures CursorOk()
      ensures r == Ok(false) <==> !StartsExpr(old(tokens[pos].code))
      ensures r == Ok(false) ==> pos == old(pos)
      ensures r == Ok(true) ==> pos > old(pos)
      decreases |tokens| - pos, 20
    {
      var start := pos;
      var m :- ExprAssign();
      if m {
        return Ok(true);
      }
      pos := start;
      return Ok(false);
    }

    /** exprAssign: `exprUnary = exprAssign`, right associative, or else exprOr. */
    method ExprAssign() returns (r: Outcome)
      requires CursorOk()
      modifies this`pos, this`consumed
      ensures CursorOk()
      ensures r == Ok(false) <==> !StartsExpr(old(tokens[pos].code))
      ensures r == Ok(false) ==> pos == old(pos)
      ensures r == Ok(true) ==> pos > old(pos)
      decreases |tokens| - pos, 19
    {
      var start := pos;
      var m :- ExprUnary();
      if m {
        var ok := Consume(Assign);
        if ok {
          var m2 :- ExprAssign();
          if m2 {
            return Ok(true);
          }
          return Fail(MissingExprAfter(Assign));
        }
      }
      pos := start;
      var m3 :- ExprOr();
      if m3 {
        return Ok(true);
      }
      pos := start;
      return Ok(false);
    }

    /** exprOr: exprAnd followed by any number of `|| exprAnd`. */
    method ExprOr() returns (r: Outcome)
      requires CursorOk()
      modifies this`pos, this`consumed
      ensures CursorOk()
      ensures r == Ok(false) <==> !StartsExpr(old(tokens[pos].code))
      ensures r == Ok(false) ==> pos == old(pos)
      ensures r == Ok(true) ==> pos > old(pos)
      decreases |tokens| - pos, 18
    {
      var start := pos;
      var m :- ExprAnd();
      if m {
        var m2 :- ExprOrSecondary();
        if m2 {
          return Ok(true);
        }
      }
      pos := start;
      return Ok(false);
    }

    method ExprOrSecondary() returns (r: Outcome)
      requires CursorOk()
      modifies this`pos, this`consumed
      ensures CursorOk()
      ensures r.Ok? ==> r.matched && pos >= old(pos)
      ensures old(tokens[pos].code) != Or ==> r == Ok(true) && pos == old(pos)
      ensures CodeAt(old(pos)) == Or && !StartsExpr(CodeAt(old(pos) + 1)) ==>
        r == Fatal(LineAt(old(pos) + 1), MissingExprAfter(Or))
      decreases |tokens| - pos, 18
    {
      var start := pos;
      var ok := Consume(Or);
      if ok {
        var m :- ExprAnd();
        if m {
          var m2 :- ExprOrSecondary();
          if m2 {
            return Ok(true);
          }
        } else {
          return Fail(MissingExprAfter(Or));
        }
      }
      pos := start;
      return Ok(true);
    }

    /** exprAnd: exprEq followed by any number of `&& exprEq`. */
    method ExprAnd() returns (r: Outcome)
      requires CursorOk()
      modifies this`pos, this`consumed
      ensures CursorOk()
      ensures r == Ok(false) <==> !StartsExpr(old(tokens[pos].code))
      ensures r == Ok(false) ==> pos == old(pos)
      ensures r == Ok(true) ==> pos > old(pos)
      decreases |tokens| - pos, 17
    {
      var start := pos;
      var m :- ExprEq();
      if m {
        var m2 :- ExprAndSecondary();
        if m2 {
          return Ok(true);
        }
      }
      pos := start;
      return Ok(false);
    }

    method ExprAndSecondary() returns (r: Outcome)
      requires CursorOk()
      modifies this`pos, this`consumed
      ensures CursorOk()
      ensures r.Ok? ==> r.matched && pos >= old(pos)
      ensures old(tokens[pos].code) != And ==> r == Ok(true) && pos == old(pos)
      ensures CodeAt(old(pos)) == And && !StartsExpr(CodeAt(old(pos) + 1)) ==>
        r == Fatal(LineAt(old(pos) + 1), MissingExprAfter(And))
      decreases |tokens| - pos, 17
    {
      var start := pos;
      var ok := Consume(And);
      if ok {
        var m :- ExprEq();
        if m {
          var m2 :- ExprAndSecondary();
          if m2 {
            return Ok(true);
          }
        } else {
          return Fail(MissingExprAfter(And));
        }
      }
      pos := start;
      return Ok(true);
    }

    /** exprEq: exprRel followed by any number of `== exprRel` or `!= exprRel`. */
    method ExprEq() returns (r: Outcome)
      requires CursorOk()
      modifies this`pos, this`consumed
      ensures CursorOk()
      ensures r == Ok(false) <==> !StartsExpr(old(tokens[pos].code))
      ensures r == Ok(false) ==> pos == old(pos)
      ensures r == Ok(true) ==> pos > old(pos)
      decreases |tokens| - pos, 16
    {
      var start := pos;
      var m :- ExprRel();
      if m {
        var m2 :- ExprEqSecondary();
        if m2 {
          return Ok(true);
        }
      }
      pos := start;
      return Ok(false);
    }

    method ExprEqSecondary() returns (r: Outcome)
      requires CursorOk()
      modifies this`pos, this`consumed
      ensures CursorOk()
      ensures r.Ok? ==> r.matched && pos >= old(pos)
      ensures old(tokens[pos].code) != Equal && old(tokens[pos].code) != NotEq ==> r == Ok(true) && pos == old(pos)
      ensures (CodeAt(old(pos)) == Equal || CodeAt(old(pos)) == NotEq) && !StartsExpr(CodeAt(old(pos) + 1)) ==>
        r == Fatal(LineAt(old(pos) + 1), MissingExprAfter(CodeAt(old(pos))))
      decreases |tokens| - pos, 16
    {
      var start := pos;
      var op := tokens[pos].code;
      var ok := Consume(Equal);
      if !ok {
        ok := Consume(NotEq);
      }
      if ok {
        var m :- ExprRel();
        if m {
          var m2 :- ExprEqSecondary();
          if m2 {
            return Ok(true);
          }
        } else {
          return Fail(MissingExprAfter(op));
        }
      }
      pos := start;
      return Ok(true);
    }

    /** exprRel: exprAdd followed by any number of `<`, `<=`, `>` or `>=` and an exprAdd. */
    method ExprRel() returns (r: Outcome)
      requires CursorOk()
      modifies this`pos, this`consumed
      ensures CursorOk()
      ensures r == Ok(false) <==> !StartsExpr(old(tokens[pos].code))
      ensures r == Ok(false) ==> pos == old(pos)
      ensures r == Ok(true) ==> pos > old(pos)
      decreases |tokens| - pos, 15
    {
      var start := pos;
      var m :- ExprAdd();
      if m {
        var m2 :- ExprRelSecondary();
        if m2 {
          return Ok(true);
        }
      }
      pos := start;
      return Ok(false);
    }

    method ExprRelSecondary() returns (r: Outcome)
      requires CursorOk()
      modifies this`pos, this`consumed
      ensures CursorOk()
      ensures r.Ok? ==> r.matched && pos >= old(pos)
      ensures var c := old(tokens[pos].code);
        c != Less && c != LessEq && c != Greater && c != GreaterEq ==> r == Ok(true) && pos == old(pos)
      ensures IsRelOp(CodeAt(old(pos))) && !StartsExpr(CodeAt(old(pos) + 1)) ==>
        r == Fatal(LineAt(old(pos) + 1), MissingExprAfter(CodeAt(old(pos))))
      decreases |tokens| - pos, 15
    {
      var start := pos;
      var op := tokens[pos].code;
      var ok := ConsumeRelOp();
      if ok {
        var m :- ExprAdd();
        if m {
          var m2 :- ExprRelSecondary();
          if m2 {
            return Ok(true);
          }
        } else {
          return Fail(MissingExprAfter(op));
        }
      }
      pos := start;
      return Ok(true);
    }

    /** `consume(LESS) || consume(LESSEQ) || consume(GREATER) || consume(GREATEREQ)`. */
    method ConsumeRelOp() returns (ok: bool)
      requires CursorOk()
      modifies this`pos, this`consumed
      ensures CursorOk()
      ensures ok <==> IsRelOp(CodeAt(old(pos)))
      ensures ok ==> pos == old(pos) + 1
      ensures !ok ==> pos == old(pos)
    {
      ok := Consume(Less);
      if !ok {
        ok := Consume(LessEq);
      }
      if !ok {
        ok := Consume(Greater);
      }
      if !ok {
        ok := Consume(GreaterEq);
      }
    }

    /** exprAdd: exprMul followed by any number of `+ exprMul` or `- exprMul`. */
    method ExprAdd() returns (r: Outcome)
      requires CursorOk()
      modifies this`pos, this`consumed
      ensures CursorOk()
      ensures r == Ok(false) <==> !StartsExpr(old(tokens[pos].code))
      ensures r == Ok(false) ==> pos == old(pos)
      ensures r == Ok(true) ==> pos > old(pos)
      decreases |tokens| - pos, 14
    {
      var start := pos;
      var m :- ExprMul();
      if m {
        var m2 :- ExprAddSecondary();
        if m2 {
          return Ok(true);
        }
      }
      pos := start;
      return Ok(false);
    }

    method ExprAddSecondary() returns (r: Outcome)
      requires CursorOk()
      modifies this`pos, this`consumed
      ensures CursorOk()
      ensures r.Ok? ==> r.matched && pos >= old(pos)
      ensures old(tokens[pos].code) != Add && old(tokens[pos].code) != Sub ==> r == Ok(true) && pos == old(pos)
      ensures (CodeAt(old(pos)) == Add || CodeAt(old(pos)) == Sub) && !StartsExpr(CodeAt(old(pos) + 1)) ==>
        r == Fatal(LineAt(old(pos) + 1), MissingExprAfter(CodeAt(old(pos))))
      decreases |tokens| - pos, 14
    {
      var start := pos;
      var op := tokens[pos].code;
      var ok := Consume(Add);
      if !ok {
        ok := Consume(Sub);
      }
      if ok {
        var m :- ExprMul();
        if m {
          var m2 :- ExprAddSecondary();
          if m2 {
            return Ok(true);
          }
        } else {
          return Fail(MissingExprAfter(op));
        }
      }
      pos := start;
      return Ok(true);
    }

    /** exprMul: exprCast followed by any number of `* exprCast` or `/ exprCast`. */
    method ExprMul() returns (r: Outcome)
      requires CursorOk()
      modifies this`pos, this`consumed
      ensures CursorOk()
      ensures r == Ok(false) <==> !StartsExpr(old(tokens[pos].code))
      ensures r == Ok(false) ==> pos == old(pos)
      ensures r == Ok(true) ==> pos > old(pos)
      decreases |tokens| - pos, 13
    {
      var start := pos;
      var m :- ExprCast();
      if m {
        var m2 :- ExprMulSecondary();
        if m2 {
          return Ok(true);
        }
      }
      pos := start;
      return Ok(false);
    }

    method ExprMulSecondary() returns (r: Outcome)
      requires CursorOk()
      modifies this`pos, this`consumed
      ensures CursorOk()
      ensures r.Ok? ==> r.matched && pos >= old(pos)
      ensures old(tokens[pos].code) != Mul && old(tokens[pos].code) != Div ==> r == Ok(true) && pos == old(pos)
      ensures (CodeAt(old(pos)) == Mul || CodeAt(old(pos)) == Div) && !StartsExpr(CodeAt(old(pos) + 1)) ==>
        r == Fatal(LineAt(old(pos) + 1), MissingExprAfter(CodeAt(old(pos))))
      decreases |tokens| - pos, 13
    {
      var start := pos;
      var op := tokens[pos].code;
      var ok := Consume(Mul);
      if !ok {
        ok := Consume(Div);
      }
      if ok {
        var m :- ExprCast();
        if m {
          var m2 :- ExprMulSecondary();
          if m2 {
            return Ok(true);
          }
        } else {
          return Fail(MissingExprAfter(op));
        }
      }
      pos := start;
      return Ok(true);
    }

    /** exprCast: `( typeBase arrayDecl? ) exprCast`, or else exprUnary. */
    method ExprCast() returns (r: Outcome)
      requires CursorOk()
      modifies this`pos, this`consumed
      ensures CursorOk()
      ensures r == Ok(false) <==> !StartsExpr(old(tokens[pos].code))
      ensures r == Ok(false) ==> pos == old(pos)
      ensures r == Ok(true) ==> pos > old(pos)
      ensures var k := old(pos) + 1 + TypeLen(old(pos) + 1);
        (CodeAt(old(pos)) == LPar && StartsType(CodeAt(old(pos) + 1), CodeAt(old(pos) + 2))
         && CodeAt(k) != LBracket && CodeAt(k) != RPar) ==> r.Fatal?
      decreases |tokens| - pos, 12
    {
      var start := pos;
      var ok := Consume(LPar);
      if ok {
        var c :- CastTail();
        if c {
          return Ok(true);
        }
      }
      pos := start;
      var m2 :- ExprUnary();
      if m2 {
        return Ok(true);
      }
      pos := start;
      return Ok(false);
    }

    /** exprUnary: `- exprUnary`, `! exprUnary`, or else exprPostfix. */
    method ExprUnary() returns (r: Outcome)
      requires CursorOk()
      modifies this`pos, this`consumed
      ensures CursorOk()
      ensures r == Ok(false) <==> !StartsExpr(old(tokens[pos].code))
      ensures r == Ok(false) ==> pos == old(pos)
      ensures r == Ok(true) ==> pos > old(pos)
      ensures (CodeAt(old(pos)) == Sub || CodeAt(old(pos)) == Not) && !StartsExpr(CodeAt(old(pos) + 1)) ==>
        r == Fatal(LineAt(old(pos) + 1), MissingExprAfter(CodeAt(old(pos))))
      decreases |tokens| - pos, 11
    {
      var start := pos;
      var op := tokens[pos].code;
      var ok := Consume(Sub);
      if !ok {
        ok := Consume(Not);
      }
      if ok {
        var m :- ExprUnary();
        if m {
          return Ok(true);
        }
        return Fail(MissingExprAfter(op));
      }
      pos := start;
      var m2 :- ExprPostfix();
      if m2 {
        return Ok(true);
      }
      pos := start;
      return Ok(false);
    }

    /**
     * exprCast after its `(`: `typeBase arrayDecl? ) exprCast`. Once a type is
     * read the `)` is required; a no-match leaves the rewind to the caller.
     */
    method CastTail() returns (r: Outcome)
      requires CursorOk()
      modifies this`pos, this`consumed
      ensures CursorOk()
      ensures r == Ok(true) ==> pos > old(pos)
      ensures !StartsType(CodeAt(old(pos)), CodeAt(old(pos) + 1)) ==> r.Ok? ==> !r.matched
      ensures var k := old(pos) + TypeLen(old(pos));
        (StartsType(CodeAt(old(pos)), CodeAt(old(pos) + 1)) && CodeAt(k) != LBracket && CodeAt(k) != RPar) ==> r.Fatal?
      decreases |tokens| - pos, 12
    {
      var tb, t :- TypeBase();
      if tb {
        var ad, t' :- ArrayDecl(t);
        var ok := Consume(RPar);
        if ok {
          r := ExprCast();
          return;
        }
        return Fail(Missing(RPar));
      }
      return Ok(false);
    }

    /** exprPostfix: exprPrimary followed by any number of `[ expr ]` or `. ID`. */
    method ExprPostfix() returns (r: Outcome)
      requires CursorOk()
      modifies this`pos, this`consumed
      ensures CursorOk()
      ensures r == Ok(false) <==> !StartsPrimary(old(tokens[pos].code))
      ensures r == Ok(false) ==> pos == old(pos)
      ensures r == Ok(true) ==> pos > old(pos)
      decreases |tokens| - pos, 10
    {
      var start := pos;
      var m :- ExprPrimary();
      if m {
        var m2 :- ExprPostfixSecondary();
        if m2 {
          return Ok(true);
        }
      }
      pos := start;
      return Ok(false);
    }

    method ExprPostfixSecondary() returns (r: Outcome)
      requires CursorOk()
      modifies this`pos, this`consumed
      ensures CursorOk()
      ensures r.Ok? ==> r.matched && pos >= old(pos)
      ensures old(tokens[pos].code) != LBracket && old(tokens[pos].code) != Dot ==> r == Ok(true) && pos == old(pos)
      ensures CodeAt(old(pos)) == LBracket && !StartsExpr(CodeAt(old(pos) + 1)) ==>
        r == Fatal(LineAt(old(pos) + 1), MissingExprAfter(LBracket))
      ensures CodeAt(old(pos)) == Dot && CodeAt(old(pos) + 1) != Id ==> r == Fatal(LineAt(old(pos) + 1), MissingName)
      decreases |tokens| - pos, 9
    {
      var start := pos;
      var ok := Consume(LBracket);
      if ok {
        var m :- Expr();
        if m {
          ok := Consume(RBracket);
          if ok {
            var m2 :- ExprPostfixSecondary();
            if m2 {
              return Ok(true);
            }
          } else {
            return Fail(Missing(RBracket));
          }
        } else {
          return Fail(MissingExprAfter(LBracket));
        }
      }
      pos := start;
      ok := Consume(Dot);
      if ok {
        ok := Consume(Id);
        if ok {
          var m3 :- ExprPostfixSecondary();
          if m3 {
            return Ok(true);
          }
        } else {
          return Fail(MissingName);
        }
      }
      pos := start;
      return Ok(true);
    }

    /**
     * The arguments of a call after `ID (`: `expr (, expr)*` or nothing, then
     * `)`. A comma without an expression or a missing `)` is fatal.
     */
    method CallArgs() returns (r: Outcome)
      requires CursorOk()
      modifies this`pos, this`consumed
      ensures CursorOk()
      ensures r.Ok? ==> r.matched && pos > old(pos) && CodeAt(pos - 1) == RPar
      ensures !StartsExpr(CodeAt(old(pos))) && CodeAt(old(pos)) != RPar ==> r == Fatal(LineAt(old(pos)), Missing(RPar))
      decreases |tokens| - pos, 21
    {
      var start := pos;
      var m :- Expr();
      if m {
        while true
          invariant CursorOk() && pos > start
          decreases |tokens| - pos
        {
          var ok := Consume(Comma);
          if !ok {
            break;
          }
          var e :- Expr();
          if !e {
            return Fail(MissingExprAfter(Comma));
          }
        }
      }
      var ok := Consume(RPar);
      if ok {
        return Ok(true);
      }
      return Fail(Missing(RPar));
    }

    /** exprPrimary after its ID: a call when `(` follows, otherwise the ID alone. */
    method IdRest() returns (r: Outcome)
      requires CursorOk()
      modifies this`pos, this`consumed
      ensures CursorOk()
      ensures r.Ok? ==> r.matched && pos >= old(pos)
      ensures CodeAt(old(pos)) != LPar ==> r == Ok(true) && pos == old(pos)
      ensures (CodeAt(old(pos)) == LPar && !StartsExpr(CodeAt(old(pos) + 1)) && CodeAt(old(pos) + 1) != RPar) ==>
        r == Fatal(LineAt(old(pos) + 1), Missing(RPar))
      decreases |tokens| - pos, 22
    {
      var ok := Consume(LPar);
      if ok {
        r := CallArgs();
        return;
      }
      return Ok(true);
    }

    /** `consume(INT) || consume(DOUBLE) || consume(CHAR) || consume(STRING)`. */
    method ConsumeLiteral() returns (ok: bool)
      requires CursorOk()
      modifies this`pos, this`consumed
      ensures CursorOk()
      ensures ok <==> var c := CodeAt(old(pos)); c == Int || c == Double || c == Char || c == String
      ensures ok ==> pos == old(pos) + 1
      ensures !ok ==> pos == old(pos)
    {
      ok := Consume(Int);
      if !ok {
        ok := Consume(Double);
      }
      if !ok {
        ok := Consume(Char);
      }
      if !ok {
        ok := Consume(String);
      }
    }

    /** A parenthesised expression after its `(`: the expression and `)` are both required. */
    method ParenRest() returns (r: Outcome)
      requires CursorOk()
      modifies this`pos, this`consumed
      ensures CursorOk()
      ensures r.Ok? ==> r.matched && pos > old(pos) && CodeAt(pos - 1) == RPar
      ensures !StartsExpr(CodeAt(old(pos))) ==> r == Fatal(LineAt(old(pos)), MissingExprAfter(LPar))
      decreases |tokens| - pos, 21
    {
      var m :- Expr();
      if m {
        var ok := Consume(RPar);
        if ok {
          return Ok(true);
        }
        return Fail(Missing(RPar));
      }
      return Fail(MissingExprAfter(LPar));
    }

    /** exprPrimary: a call `ID ( args )`, an ID, a literal, or `( expr )`. */
    method ExprPrimary() returns (r: Outcome)
      requires CursorOk()
      modifies this`pos, this`consumed
      ensures CursorOk()
      ensures r == Ok(false) <==> !StartsPrimary(CodeAt(old(pos)))
      ensures r == Ok(false) ==> pos == old(pos)
      ensures r == Ok(true) ==> pos > old(pos)
      ensures CodeAt(old(pos)) == LPar && !StartsExpr(CodeAt(old(pos) + 1)) ==>
        r == Fatal(LineAt(old(pos) + 1), MissingExprAfter(LPar))
      ensures (CodeAt(old(pos)) == Id && CodeAt(old(pos) + 1) == LPar && !StartsExpr(CodeAt(old(pos) + 2))
               && CodeAt(old(pos) + 2) != RPar) ==> r == Fatal(LineAt(old(pos) + 2), Missing(RPar))
      decreases |tokens| - pos, 9
    {
      var start := pos;
      var ok := Consume(Id);
      if ok {
        r := IdRest();
        return;
      }
      pos := start;
      ok := ConsumeLiteral();
      if ok {
        return Ok(true);
      }
      ok := Consume(LPar);
      if ok {
        r := ParenRest();
        return;
      }
      pos := start;
      return Ok(false);
    }

    // -------------------------------------------------------------------------
    // Declarations

    /**
     * The owner's half of a variable declaration: the variable records its
     * owner, takes the owner's next slot (the number of a function's locals or
     * the size of a struct so far) and a copy of it joins the owner's list.
     */
    method DeclareInOwner(v: Symbol) returns (v': Symbol)
      requires OwnerValid(st.domains, owner) && owner.Some?
      modifies st
      ensures var os := SymAt(old(st.domains), owner.value);
        && v' == v.(owner := Some(os.name), varIdx := NextSlot(os))
        && st.domains == Replace(old(st.domains), owner.value, DeclareVar(os, v'))
    {
      var o := owner.value;
      var os := st.domains[o.depth][o.index];
      v' := v.(owner := Some(os.name));
      if os.kind == SkFn {
        var count := SymbolsLen(os.locals);
        v' := v'.(varIdx := count);
      } else {
        var size := TypeSize(os.ty);
        v' := v'.(varIdx := size);
      }
      st.SetSymbol(o.depth, o.index, DeclareVar(os, DupSymbol(v')));
    }

    /**
     * The declaring half of varDef, once `typeBase ID arrayDecl? ;` is read:
     * the name must be new in the current domain. The variable is appended to
     * it and, by the kind of the owner, numbered after the function's locals,
     * placed at the struct's size so far, or given storage of its own.
     */
    method DeclareVariable(name: string, t: Type) returns (r: Outcome)
      requires CursorOk() && OwnerValid(st.domains, owner)
      modifies st
      ensures r.Fatal? <==> FindInList(old(st.Current()), name).Some?
      ensures r.Fatal? ==> r == Fatal(LineAt(pos), Redefinition(name))
      ensures r.Ok? ==>
        && r.matched && VarDeclared(old(st.domains), st.domains, owner)
        && Added(st.domains).name == name && Added(st.domains).ty == t
    {
      var found := FindSymbolInDomain(st.Current(), name);
      if found.Some? {
        return Fail(Redefinition(name));
      }
      ghost var ds0 := st.domains;
      var v := NewSymbol(name, SkVar).(ty := t);
      if owner.Some? {
        v := DeclareInOwner(v);
      } else {
        v := v.(hasStorage := true);
      }
      st.AddSymbolToDomain(v);
      VarStep(ds0, owner, v);
      return Ok(true);
    }

    /**
     * varDef: `typeBase ID arrayDecl? ;`, where an array needs a dimension.
     * Without a type it does not match; after one, anything missing is fatal.
     */
    method VarDef() returns (r: Outcome)
      requires CursorOk() && OwnerValid(st.domains, owner)
      modifies this`pos, this`consumed, st
      ensures CursorOk()
      ensures r == Ok(false) <==> !StartsType(CodeAt(old(pos)), CodeAt(old(pos) + 1))
      ensures r == Ok(false) ==> pos == old(pos) && st.domains == old(st.domains)
      ensures r == Ok(true) ==>
        pos > old(pos) && VarDeclared(old(st.domains), st.domains, owner) && Added(st.domains).ty.n != 0
      ensures r == Ok(true) ==>
        VarFromTokens(old(pos) + TypeLen(old(pos)), pos, Added(st.domains), TypeAt(old(st.domains), old(pos)))
      ensures StartsType(CodeAt(old(pos)), CodeAt(old(pos) + 1)) && CodeAt(old(pos) + TypeLen(old(pos))) != Id ==> r.Fatal?
      decreases |tokens| - pos, 30
    {
      var start := pos;
      var tb, t :- TypeBase();
      if tb {
        r := VarDefRest(t);
        return;
      }
      pos := start;
      return Ok(false);
    }

    /** varDef after its type: `ID arrayDecl? ;`, where an array needs a dimension. */
    method VarDefRest(t: Type) returns (r: Outcome)
      requires CursorOk() && OwnerValid(st.domains, owner) && t.n == -1
      modifies this`pos, this`consumed, st
      ensures CursorOk()
      ensures r.Ok? ==>
        r.matched && pos > old(pos) && VarDeclared(old(st.domains), st.domains, owner) && Added(st.domains).ty.n != 0
      ensures r.Ok? ==> VarFromTokens(old(pos), pos, Added(st.domains), t.tb)
      ensures r.Ok? ==>
        var k := old(pos);
        && (CodeAt(k + 1) == LBracket ==> CodeAt(k + 3) == RBracket && CodeAt(k + 4) == Semicolon && pos == k + 5)
        && (CodeAt(k + 1) != LBracket ==> CodeAt(k + 1) == Semicolon && pos == k + 2)
      ensures CodeAt(old(pos)) != Id ==> r == Fatal(LineAt(old(pos)), MissingName)
    {
      var ok := Consume(Id);
      if ok {
        r := VarTail(tokens[pos - 1].text, t);
        return;
      }
      return Fail(MissingName);
    }

    /**
     * varDef after its name: `[ INT ] ;` gives an array of that dimension and
     * `;` alone a scalar; `[]` and a missing `;` are fatal.
     */
    method VarTail(name: string, t: Type) returns (r: Outcome)
      requires CursorOk() && OwnerValid(st.domains, owner) && t.n == -1
      modifies this`pos, this`consumed, st
      ensures CursorOk()
      ensures r.Ok? ==>
        && r.matched && pos > old(pos) && VarDeclared(old(st.domains), st.domains, owner) && CodeAt(pos - 1) == Semicolon
        && Added(st.domains).name == name && Added(st.domains).ty.tb == t.tb && Added(st.domains).ty.n != 0
      ensures r.Ok? ==>
        var k := old(pos);
        && (CodeAt(k) == LBracket ==>
              && CodeAt(k + 1) == Int && CodeAt(k + 2) == RBracket && CodeAt(k + 3) == Semicolon
              && pos == k + 4 && Added(st.domains).ty.n == Atoi(TextAt(k + 1)))
        && (CodeAt(k) != LBracket ==> CodeAt(k) == Semicolon && pos == k + 1 && Added(st.domains).ty.n == -1)
    {
      ghost var k, d0 := pos, st.domains;
      var _, t' :- VarDims(t);
      assert st.domains == d0;
      ghost var e := pos;
      r := VarEnd(name, t');
      assert r.Ok? ==> CodeAt(e) == Semicolon && pos == e + 1 && VarDeclared(d0, st.domains, owner);
    }

    /**
     * varDef's array part: `[ INT ]` gives the dimension, no `[` leaves the
     * scalar `t`, and `[]` is fatal, since a variable needs its dimension.
     */
    method VarDims(t: Type) returns (r: Outcome, t': Type)
      requires CursorOk() && t.n == -1
      modifies this`pos, this`consumed
      ensures CursorOk()
      ensures r.Ok? ==> r.matched && t'.tb == t.tb && t'.n != 0
      ensures r.Ok? && CodeAt(old(pos)) == LBracket ==>
        && CodeAt(old(pos) + 1) == Int && CodeAt(old(pos) + 2) == RBracket
        && pos == old(pos) + 3 && t'.n == Atoi(TextAt(old(pos) + 1))
      ensures r.Ok? && CodeAt(old(pos)) != LBracket ==> pos == old(pos) && t' == t
    {
      var isArray;
      isArray, t' :- ArrayDecl(t);
      if isArray && t'.n == 0 {
        return Fail(ArrayWithoutSize), t';
      }
      return Ok(true), t';
    }

    /** varDef at its `;`: the `;` must be there, then the variable is declared with type `t`. */
    method VarEnd(name: string, t: Type) returns (r: Outcome)
      requires CursorOk() && OwnerValid(st.domains, owner) && t.n != 0
      modifies this`pos, this`consumed, st
      ensures CursorOk()
      ensures r.Ok? ==>
        && r.matched && CodeAt(old(pos)) == Semicolon && pos == old(pos) + 1 && CodeAt(pos - 1) == Semicolon
        && VarDeclared(old(st.domains), st.domains, owner)
        && Added(st.domains).name == name && Added(st.domains).ty == t
      ensures CodeAt(old(pos)) != Semicolon ==> r == Fatal(LineAt(old(pos)), Missing(Semicolon))
    {
      var ok := Consume(Semicolon);
      if ok {
        r := DeclareVariable(name, t);
        return;
      }
      return Fail(Missing(Semicolon));
    }

    /** addFnParam's two writes: `p` is appended to the current domain and to the owning function's parameters. */
    method AddParam(p: Symbol)
      requires FnOwner(st.domains, owner)
      modifies st
      ensures st.domains == WithParam(old(st.domains), owner.value, p)
    {
      var o := owner.value;
      var fn := st.domains[o.depth][o.index];
      st.AddSymbolToDomain(p);
      st.SetSymbol(o.depth, o.index, DeclareParam(fn, DupSymbol(p)));
    }

    /**
     * The declaring half of fnParam, once `typeBase ID arrayDecl?` is read: the
     * name must be new in the function's domain. The parameter is numbered
     * after the function's parameters, appended to them and to the domain, and
     * its `n` becomes the address size (times `n` for a struct array with a
     * dimension, which arrayDecl never leaves for a parameter).
     */
    method DeclareParameter(name: string, t: Type) returns (r: Outcome)
      requires CursorOk() && FnOwner(st.domains, owner)
      modifies st
      ensures r.Fatal? <==> FindInList(old(st.Current()), name).Some?
      ensures r.Fatal? ==> r == Fatal(LineAt(pos), Redefinition(name))
      ensures r.Ok? ==>
        && r.matched && st.domains != [] && FnOwner(st.domains, owner)
        && |st.Current()| > 0
        && ParamAdded(old(st.domains), st.domains, owner, Added(st.domains))
        && ParamsDeclared(old(st.domains), st.domains, owner)
        && Added(st.domains).name == name && Added(st.domains).ty.tb == t.tb
        && (t.n <= 0 ==> Added(st.domains).ty.n == PointerSize)
    {
      var found := FindSymbolInDomain(st.Current(), name);
      if found.Some? {
        return Fail(Redefinition(name));
      }
      ghost var ds0 := st.domains;
      var o := owner.value;
      var fn := st.domains[o.depth][o.index];
      var count := SymbolsLen(fn.params);
      var n := if t.tb.TbStruct? && t.n > 0 then t.n * PointerSize else PointerSize;
      var p := NewSymbol(name, SkParam).(ty := t.(n := n), owner := Some(fn.name), paramIdx := count);
      AddParam(p);
      ParamStep(ds0, owner, p);
      return Ok(true);
    }

    /**
     * fnParam: `typeBase ID arrayDecl?`; an array parameter has dimension 0.
     * Without a type it does not match; a type without a name is fatal.
     */
    method FnParam() returns (r: Outcome)
      requires CursorOk() && FnOwner(st.domains, owner)
      modifies this`pos, this`consumed, st
      ensures CursorOk()
      ensures r == Ok(false) <==> !StartsType(CodeAt(old(pos)), CodeAt(old(pos) + 1))
      ensures r == Ok(false) ==> pos == old(pos) && st.domains == old(st.domains)
      ensures r == Ok(true) ==>
        && pos > old(pos) && FnOwner(st.domains, owner)
        && |st.Current()| > 0
        && ParamAdded(old(st.domains), st.domains, owner, Added(st.domains))
        && ParamsDeclared(old(st.domains), st.domains, owner)
        && ParamFromTokens(old(pos) + TypeLen(old(pos)), Added(st.domains), TypeAt(old(st.domains), old(pos)))
      ensures StartsType(CodeAt(old(pos)), CodeAt(old(pos) + 1)) && CodeAt(old(pos) + TypeLen(old(pos))) != Id ==> r.Fatal?
      decreases |tokens| - pos, 3
    {
      var start := pos;
      ghost var d0 := st.domains;
      var tb, t :- TypeBase();
      if tb {
        assert pos == start + TypeLen(start) && t.tb == TypeAt(d0, start) && t.n == -1 && st.domains == d0;
        r := ParamRest(t);
        return;
      }
      pos := start;
      return Ok(false);
    }

    /** fnParam after its type: the name, then an optional `[...]`, which makes the parameter an address. */
    method ParamRest(t: Type) returns (r: Outcome)
      requires CursorOk() && FnOwner(st.domains, owner) && t.n == -1
      modifies this`pos, this`consumed, st
      ensures CursorOk()
      ensures r.Ok? ==>
        && r.matched && pos > old(pos) && FnOwner(st.domains, owner)
        && |st.Current()| > 0
        && ParamAdded(old(st.domains), st.domains, owner, Added(st.domains))
        && ParamsDeclared(old(st.domains), st.domains, owner)
        && ParamFromTokens(old(pos), Added(st.domains), t.tb)
      ensures CodeAt(old(pos)) != Id ==> r.Fatal?
      decreases |tokens| - pos, 2
    {
      var ok := Consume(Id);
      if ok {
        var name := tokens[pos - 1].text;
        var isArray, t' :- ArrayDecl(t);
        if isArray {
          t' := t'.(n := 0);
        }
        r := DeclareParameter(name, t');
        return;
      }
      return Fail(MissingName);
    }

    /**
     * What structDef and fnDef do with a new struct or function: add it to the
     * current domain, make it the owner and open a domain for its body.
     */
    method OpenOwner(s: Symbol) returns (o: SymRef)
      requires st.domains != [] && OwnerShape(s)
      modifies this`owner, st
      ensures o == TailRef(old(st.domains)) && owner == Some(o)
      ensures st.domains == WithTail(old(st.domains), s) + [[]]
      ensures OwnerValid(st.domains, owner)
    {
      ghost var ds0 := st.domains;
      st.AddSymbolToDomain(s);
      assert st.domains == WithTail(ds0, s);
      o := SymRef(|st.domains| - 1, |st.Current()| - 1);
      owner := Some(o);
      st.PushDomain();
    }

    /** `varDef*`: the members of the owning struct, or the variables of any owner. */
    method VarDefs() returns (r: Outcome)
      requires CursorOk() && OwnerValid(st.domains, owner)
      modifies this`pos, this`consumed, st
      ensures CursorOk()
      ensures r.Ok? ==> r.matched && pos >= old(pos) && DeclEvolved(old(st.domains), st.domains, owner)
    {
      EvolvedRefl(st.domains, owner, true);
      while true
        invariant CursorOk() && pos >= old(pos)
        invariant DeclEvolved(old(st.domains), st.domains, owner)
        decreases |tokens| - pos
      {
        ghost var before := st.domains;
        var v :- VarDef();
        if !v {
          break;
        }
        EvolvedTrans(old(st.domains), before, st.domains, owner, true, true);
      }
      return Ok(true);
    }

    /** `varDef* } ;`: the members of a struct and the end of its definition. */
    method StructMembers() returns (r: Outcome)
      requires CursorOk() && OwnerValid(st.domains, owner)
      modifies this`pos, this`consumed, st
      ensures CursorOk()
      ensures r.Ok? ==> r.matched && pos > old(pos) + 1 && DeclEvolved(old(st.domains), st.domains, owner)
      ensures r.Ok? ==> CodeAt(pos - 2) == RAcc && CodeAt(pos - 1) == Semicolon
    {
      var members :- VarDefs();
      var ok := Consume(RAcc);
      if !ok {
        return Fail(Missing(RAcc));
      }
      ok := Consume(Semicolon);
      if !ok {
        return Fail(Missing(Semicolon));
      }
      return Ok(true);
    }

    /**
     * The part of structDef after `{`: the struct must be new in the current
     * domain; its members are declared in a domain of their own with the
     * struct as owner, so each is placed at the struct's size so far.
     */
    method StructDefRest(name: string) returns (r: Outcome)
      requires CursorOk() && OwnerValid(st.domains, owner)
      modifies this, st
      ensures CursorOk()
      ensures r.Ok? ==>
        && r.matched && pos > old(pos) && owner == None
        && StructAdded(old(st.domains), st.domains) && Added(st.domains).name == name
    {
      var found := FindSymbolInDomain(st.Current(), name);
      if found.Some? {
        return Fail(Redefinition(name));
      }
      ghost var ds0 := st.domains;
      var s := NewSymbol(name, SkStruct).(ty := Type(TbStruct(name, []), -1));
      var o := OpenOwner(s);
      var members :- StructMembers();
      ghost var ds1 := st.domains;
      StructClosed(ds0, s, ds1);
      owner := None;
      st.DropDomain();
      assert st.domains == ds1[..|ds1| - 1];
      return Ok(true);
    }

    /**
     * structDef: `struct ID { varDef* } ;`. Without `{` after the name it
     * does not match (it is a type); `struct` without a name is fatal.
     */
    method StructDef() returns (r: Outcome)
      requires CursorOk() && OwnerValid(st.domains, owner)
      modifies this, st
      ensures CursorOk() && (r.Ok? ==> OwnerValid(st.domains, owner))
      ensures r == Ok(false) <==>
        CodeAt(old(pos)) != Struct || (CodeAt(old(pos) + 1) == Id && CodeAt(old(pos) + 2) != LAcc)
      ensures r == Ok(false) ==> pos == old(pos) && st.domains == old(st.domains) && owner == old(owner)
      ensures r == Ok(true) ==>
        && pos > old(pos) + 2 && owner == None
        && StructAdded(old(st.domains), st.domains) && Added(st.domains).name == tokens[old(pos) + 1].text
      ensures CodeAt(old(pos)) == Struct && CodeAt(old(pos) + 1) != Id ==> r == Fatal(LineAt(old(pos) + 1), MissingName)
    {
      var start := pos;
      var ok := Consume(Struct);
      if ok {
        ok := Consume(Id);
        if !ok {
          return Fail(MissingName);
        }
        var name := tokens[pos - 1].text;
        ok := Consume(LAcc);
        if ok {
          r := StructDefRest(name);
          return;
        }
      }
      pos := start;
      return Ok(false);
    }

    /** `, fnParam`: one more parameter; a comma without one is fatal. */
    method NextParam() returns (r: Outcome)
      requires CursorOk() && FnOwner(st.domains, owner)
      modifies this`pos, this`consumed, st
      ensures CursorOk()
      ensures r == Ok(false) <==> CodeAt(old(pos)) != Comma
      ensures r == Ok(false) ==> pos == old(pos) && st.domains == old(st.domains)
      ensures r == Ok(true) ==>
        && pos > old(pos) + 1 && FnOwner(st.domains, owner)
        && |st.Current()| > 0
        && ParamAdded(old(st.domains), st.domains, owner, Added(st.domains))
        && ParamsDeclared(old(st.domains), st.domains, owner)
      ensures CodeAt(old(pos)) == Comma && !StartsType(CodeAt(old(pos) + 1), CodeAt(old(pos) + 2)) ==>
        r == Fatal(LineAt(old(pos) + 1), MissingParam)
    {
      var ok := Consume(Comma);
      if !ok {
        return Ok(false);
      }
      var p :- FnParam();
      if !p {
        return Fail(MissingParam);
      }
      return Ok(true);
    }

    /**
     * `fnParam (, fnParam)*` for the owning function: each parameter lands in
     * the function's domain and its list of parameters. Without a first
     * parameter it does not match.
     */
    method FnParams() returns (r: Outcome)
      requires CursorOk() && FnOwner(st.domains, owner)
      modifies this`pos, this`consumed, st
      ensures CursorOk()
      ensures r == Ok(false) <==> !StartsType(CodeAt(old(pos)), CodeAt(old(pos) + 1))
      ensures r == Ok(false) ==> pos == old(pos) && st.domains == old(st.domains)
      ensures r.Ok? ==> pos >= old(pos) && ParamsDeclared(old(st.domains), st.domains, owner)
    {
      var p :- FnParam();
      if !p {
        ReplaceSame(st.domains, owner.value);
        return Ok(false);
      }
      while true
        invariant CursorOk() && pos > old(pos)
        invariant ParamsDeclared(old(st.domains), st.domains, owner)
        decreases |tokens| - pos
      {
        ghost var before := st.domains;
        var more :- NextParam();
        if !more {
          break;
        }
        ParamsDeclaredTrans(old(st.domains), before, st.domains, owner);
      }
      return Ok(true);
    }

    /** `params? )`: the parameter list and the `)` that must close it. */
    method ParamList() returns (r: Outcome)
      requires CursorOk() && FnOwner(st.domains, owner)
      modifies this`pos, this`consumed, st
      ensures CursorOk()
      ensures r.Ok? ==> r.matched && pos > old(pos) && ParamsDeclared(old(st.domains), st.domains, owner)
      ensures r.Ok? ==> CodeAt(pos - 1) == RPar
    {
      var params :- FnParams();
      var ok := Consume(RPar);
      if !ok {
        return Fail(Missing(RPar));
      }
      return Ok(true);
    }

    /**
     * The parameters, `)` and body of the function that owns the current
     * domain; then that domain is dropped and there is no owner any more. A
     * comma without a parameter or a missing `)` is fatal. When no body
     * follows `)`, the cursor goes back to `start` while the domain and the
     * owner stay as they are.
     */
    method FnParamsAndBody(start: nat) returns (r: Outcome)
      requires CursorOk() && FnOwner(st.domains, owner) && start < pos
      modifies this, st
      ensures CursorOk()
      ensures r == Ok(false) ==> pos == start && FnOwner(st.domains, owner)
      ensures r == Ok(true) ==>
        pos > old(pos) && owner == None && FnDone(old(st.domains), st.domains, old(owner).value)
    {
      var params :- ParamList();
      ghost var dsP := st.domains;
      var body :- StmCompound(false);
      if body {
        ParamsThenBody(old(st.domains), dsP, st.domains, owner, true);
        st.DropDomain();
        owner := None;
        return Ok(true);
      }
      pos := start;
      return Ok(false);
    }

    /**
     * The part of fnDef after `(`, the same for a `void` and a typed function:
     * the name must be new in the current domain; the function is added, made
     * the owner and given a domain for its parameters and body.
     */
    method FnDefRest(name: string, t: Type, start: nat) returns (r: Outcome)
      requires CursorOk() && OwnerValid(st.domains, owner) && start < pos
      modifies this, st
      ensures CursorOk() && (r.Ok? ==> OwnerValid(st.domains, owner))
      ensures r == Ok(false) ==> pos == start
      ensures r == Ok(true) ==>
        && pos > old(pos) && owner == None
        && FnAdded(old(st.domains), st.domains) && Added(st.domains).name == name && Added(st.domains).ty == t
      ensures FindInList(old(st.Current()), name).Some? ==> r == Fatal(LineAt(old(pos)), Redefinition(name))
    {
      var found := FindSymbolInDomain(st.Current(), name);
      if found.Some? {
        return Fail(Redefinition(name));
      }
      ghost var ds0 := st.domains;
      var fn := NewSymbol(name, SkFn).(ty := t);
      var o := OpenOwner(fn);
      r := FnParamsAndBody(start);
      if r == Ok(true) {
        CloseOwner(ds0, fn, SymAt(st.domains, o));
      }
    }

    /** fnDef after `void`: the name and `(` must follow; the return type is `void` with `n` -1. */
    method VoidFnDef(start: nat) returns (r: Outcome)
      requires CursorOk() && OwnerValid(st.domains, owner) && start + 1 == pos
      modifies this, st
      ensures CursorOk() && (r.Ok? ==> OwnerValid(st.domains, owner))
      ensures r == Ok(false) ==> pos == start
      ensures r == Ok(true) ==>
        && pos > start + 3 && owner == None
        && FnFromTokens(old(st.domains), st.domains, start + 1, Type(TbVoid, -1))
      ensures CodeAt(start + 1) != Id ==> r == Fatal(LineAt(start + 1), MissingName)
      ensures CodeAt(start + 1) == Id && CodeAt(start + 2) != LPar ==> r == Fatal(LineAt(start + 2), Missing(LPar))
      ensures CodeAt(start + 1) == Id && CodeAt(start + 2) == LPar && FindInList(old(st.Current()), TextAt(start + 1)).Some? ==>
        r == Fatal(LineAt(start + 3), Redefinition(TextAt(start + 1)))
      ensures VoidHeadBad(start + 1) || HeadRedefined(old(st.Current()), start + 1) ==> r.Fatal?
    {
      var ok := Consume(Id);
      if !ok {
        return Fail(MissingName);
      }
      var name := tokens[pos - 1].text;
      ok := Consume(LPar);
      if !ok {
        return Fail(Missing(LPar));
      }
      r := FnDefRest(name, Type(TbVoid, -1), start);
    }

    /**
     * fnDef after a type: the name is required once a type has been read, and
     * `(` decides whether this is a function at all; without it the cursor
     * goes back and nothing is declared. The return type has `n` -1.
     */
    method TypedFnDef() returns (r: Outcome)
      requires CursorOk() && OwnerValid(st.domains, owner)
      modifies this, st
      ensures CursorOk() && (r.Ok? ==> OwnerValid(st.domains, owner))
      ensures r == Ok(false) ==> pos == old(pos)
      ensures !StartsType(CodeAt(old(pos)), CodeAt(old(pos) + 1)) ==>
        r == Ok(false) && st.domains == old(st.domains) && owner == old(owner)
      ensures r == Ok(true) ==>
        var k := old(pos) + TypeLen(old(pos));
        && pos > k + 1 && owner == None
        && FnFromTokens(old(st.domains), st.domains, k, Type(TypeAt(old(st.domains), old(pos)), -1))
      ensures var k := old(pos) + TypeLen(old(pos));
        StartsType(CodeAt(old(pos)), CodeAt(old(pos) + 1)) && (CodeAt(k) != Id || HeadRedefined(old(st.Current()), k)) ==>
        r.Fatal?
    {
      var start := pos;
      ghost var d0 := st.domains;
      var tb, t :- TypeBase();
      if tb {
        assert pos == start + TypeLen(start) && t == Type(TypeAt(d0, start), -1) && st.domains == d0;
        r := TypedFnRest(t, start);
        return;
      }
      pos := start;
      return Ok(false);
    }

    /**
     * fnDef after its return type `t`, which began at `start`: a missing name is
     * fatal, and without `(` the cursor goes back to `start` and nothing is declared.
     */
    method TypedFnRest(t: Type, start: nat) returns (r: Outcome)
      requires CursorOk() && OwnerValid(st.domains, owner) && start < pos
      modifies this, st
      ensures CursorOk() && (r.Ok? ==> OwnerValid(st.domains, owner))
      ensures r == Ok(false) ==> pos == start
      ensures r == Ok(true) ==> pos > old(pos) + 1 && owner == None && FnFromTokens(old(st.domains), st.domains, old(pos), t)
      ensures CodeAt(old(pos)) != Id || HeadRedefined(old(st.Current()), old(pos)) ==> r.Fatal?
    {
      var ok := Consume(Id);
      if !ok {
        return Fail(MissingName);
      }
      var name := tokens[pos - 1].text;
      ok := Consume(LPar);
      if !ok {
        pos := start;
        return Ok(false);
      }
      r := FnDefRest(name, t, start);
    }

    /**
     * fnDef: `void ID ( params? ) stmCompound` or `typeBase ID ( params? ) stmCompound`.
     * After `void` a missing name or `(` is fatal; after a type only a missing
     * name is. A `void` function's return type has `n` -1.
     */
    method FnDef() returns (r: Outcome)
      requires CursorOk() && OwnerValid(st.domains, owner)
      modifies this, st
      ensures CursorOk() && (r.Ok? ==> OwnerValid(st.domains, owner))
      ensures r == Ok(false) ==> pos == old(pos)
      ensures CodeAt(old(pos)) != Void && !StartsType(CodeAt(old(pos)), CodeAt(old(pos) + 1)) ==>
        r == Ok(false) && st.domains == old(st.domains) && owner == old(owner)
      ensures r == Ok(true) && CodeAt(old(pos)) == Void ==>
        pos > old(pos) + 2 && owner == None && FnFromTokens(old(st.domains), st.domains, old(pos) + 1, Type(TbVoid, -1))
      ensures r == Ok(true) && CodeAt(old(pos)) != Void ==>
        var k := old(pos) + TypeLen(old(pos));
        && pos > k + 1 && owner == None
        && FnFromTokens(old(st.domains), st.domains, k, Type(TypeAt(old(st.domains), old(pos)), -1))
      ensures CodeAt(old(pos)) == Void ==>
        (VoidHeadBad(old(pos) + 1) || HeadRedefined(old(st.Current()), old(pos) + 1) ==> r.Fatal?)
      ensures CodeAt(old(pos)) != Void ==>
        var k := old(pos) + TypeLen(old(pos));
        StartsType(CodeAt(old(pos)), CodeAt(old(pos) + 1)) && (CodeAt(k) != Id || HeadRedefined(old(st.Current()), k)) ==>
        r.Fatal?
    {
      var start := pos;
      var ok := Consume(Void);
      if ok {
        r := VoidFnDef(start);
      } else {
        r := TypedFnDef();
      }
    }

    // -------------------------------------------------------------------------
    // Statements, all inside a function body

    /**
     * The condition of `if` and `while` after its `(`: an expression that can
     * be a scalar, then `)`. A missing expression or `)` is fatal.
     */
    method Condition() returns (r: Outcome)
      requires CursorOk()
      modifies this`pos, this`consumed
      ensures CursorOk()
      ensures r.Ok? ==> r.matched && pos > old(pos) + 1 && canBeScalar(tokens[old(pos)..pos - 1])
      ensures r.Ok? ==> CodeAt(pos - 1) == RPar
      ensures !StartsExpr(old(tokens[pos].code)) ==> r == Fail(MissingCondition)
    {
      var start := pos;
      var e :- Expr();
      if !e {
        return Fail(MissingCondition);
      }
      if !canBeScalar(tokens[start..pos]) {
        return Fail(NotScalar);
      }
      var ok := Consume(RPar);
      if !ok {
        return Fail(Missing(RPar));
      }
      return Ok(true);
    }

    /**
     * `if ( expr ) stm (else stm)?`. The condition must be able to be a
     * scalar; a missing condition, `)` or branch is fatal.
     */
    method StmIf() returns (r: Outcome)
      requires CursorOk() && FnOwner(st.domains, owner)
      modifies this`pos, this`consumed, st
      ensures CursorOk()
      ensures r == Ok(false) <==> CodeAt(old(pos)) != If || CodeAt(old(pos) + 1) != LPar
      ensures r == Ok(false) ==> pos == old(pos) && st.domains == old(st.domains)
      ensures r == Ok(true) ==>
        pos > old(pos) && BodyEvolved(old(st.domains), st.domains, owner, false)
      decreases |tokens| - pos, 38
    {
      var start := pos;
      var ok := Consume(If);
      if ok {
        ok := Consume(LPar);
        if ok {
          r := IfRest();
          return;
        }
      }
      pos := start;
      return Ok(false);
    }

    /** The statement an `if`, `else` or `while` governs; it must be there. */
    method Branch() returns (r: Outcome)
      requires CursorOk() && FnOwner(st.domains, owner)
      modifies this`pos, this`consumed, st
      ensures CursorOk()
      ensures r.Ok? ==> r.matched && pos > old(pos) && BodyEvolved(old(st.domains), st.domains, owner, false)
      ensures !StartsStm(CodeAt(old(pos)), CodeAt(old(pos) + 1)) ==> r == Fatal(LineAt(old(pos)), MissingBranch)
      decreases |tokens| - pos, 44
    {
      var s :- Stm();
      if !s {
        return Fail(MissingBranch);
      }
      return Ok(true);
    }

    /** `if (` read: the condition, `)`, the branch and an optional `else` branch. */
    method IfRest() returns (r: Outcome)
      requires CursorOk() && FnOwner(st.domains, owner)
      modifies this`pos, this`consumed, st
      ensures CursorOk()
      ensures r.Ok? ==> r.matched && pos > old(pos) && BodyEvolved(old(st.domains), st.domains, owner, false)
      decreases |tokens| - pos, 45
    {
      var c :- Condition();
      ghost var ds0 := st.domains;
      var s :- Branch();
      ghost var ds1 := st.domains;
      s :- ElsePart();
      EvolvedTrans(ds0, ds1, st.domains, owner, false, false);
      return Ok(true);
    }

    /** `while (` read: the condition, `)` and the body. */
    method WhileRest() returns (r: Outcome)
      requires CursorOk() && FnOwner(st.domains, owner)
      modifies this`pos, this`consumed, st
      ensures CursorOk()
      ensures r.Ok? ==> r.matched && pos > old(pos) && BodyEvolved(old(st.domains), st.domains, owner, false)
      decreases |tokens| - pos, 45
    {
      var c :- Condition();
      var s :- Branch();
      return Ok(true);
    }

    /** `(else stm)?` after an `if` branch; `else` without a statement is fatal. */
    method ElsePart() returns (r: Outcome)
      requires CursorOk() && FnOwner(st.domains, owner)
      modifies this`pos, this`consumed, st
      ensures CursorOk()
      ensures r.Ok? ==> r.matched && pos >= old(pos) && BodyEvolved(old(st.domains), st.domains, owner, false)
      ensures CodeAt(old(pos)) != Else ==> r == Ok(true) && pos == old(pos) && st.domains == old(st.domains)
      ensures CodeAt(old(pos)) == Else && !StartsStm(CodeAt(old(pos) + 1), CodeAt(old(pos) + 2)) ==>
        r == Fatal(LineAt(old(pos) + 1), MissingBranch)
      decreases |tokens| - pos, 44
    {
      var ok := Consume(Else);
      if ok {
        r := Branch();
        return;
      }
      EvolvedRefl(st.domains, owner, false);
      return Ok(true);
    }

    /** `while ( expr ) stm`, with the same demands as `if`. */
    method StmWhile() returns (r: Outcome)
      requires CursorOk() && FnOwner(st.domains, owner)
      modifies this`pos, this`consumed, st
      ensures CursorOk()
      ensures r == Ok(false) <==> CodeAt(old(pos)) != While || CodeAt(old(pos) + 1) != LPar
      ensures r == Ok(false) ==> pos == old(pos) && st.domains == old(st.domains)
      ensures r == Ok(true) ==>
        pos > old(pos) && BodyEvolved(old(st.domains), st.domains, owner, false)
      decreases |tokens| - pos, 38
    {
      var start := pos;
      var ok := Consume(While);
      if ok {
        ok := Consume(LPar);
        if ok {
          r := WhileRest();
          return;
        }
      }
      pos := start;
      return Ok(false);
    }

    /**
     * The value after `return` in a function of type `ty`: a `void` function
     * returns none, and any other one that can be a scalar and converts to `ty`.
     */
    method ReturnValue(ty: Type) returns (r: Outcome)
      requires CursorOk()
      modifies this`pos, this`consumed
      ensures CursorOk()
      ensures r.Ok? ==>
        && r.matched && pos >= old(pos)
        && (pos == old(pos) <==> ty.tb.TbVoid?)
        && (pos == old(pos) <==> !StartsExpr(CodeAt(old(pos))))
        && (pos > old(pos) ==> canBeScalar(tokens[old(pos)..pos]) && convTo(tokens[old(pos)..pos], ty))
    {
      var start := pos;
      var e :- Expr();
      if e {
        if ty.tb.TbVoid? {
          return Fail(VoidReturnsValue);
        }
        if !canBeScalar(tokens[start..pos]) {
          return Fail(NotScalar);
        }
        if !convTo(tokens[start..pos], ty) {
          return Fail(NotConvertible);
        }
      } else if !ty.tb.TbVoid? {
        return Fail(MissingReturnValue);
      }
      return Ok(true);
    }

    /**
     * What follows `return`: the value, as `ReturnValue` checks it, then `;`,
     * whose absence is fatal.
     */
    method ReturnTail(ty: Type) returns (r: Outcome)
      requires CursorOk()
      modifies this`pos, this`consumed
      ensures CursorOk()
      ensures r.Ok? ==>
        && r.matched && pos > old(pos) && CodeAt(pos - 1) == Semicolon
        && (ty.tb.TbVoid? <==> CodeAt(old(pos)) == Semicolon)
    {
      var v :- ReturnValue(ty);
      var ok := Consume(Semicolon);
      if !ok {
        return Fail(Missing(Semicolon));
      }
      return Ok(true);
    }

    /**
     * `return expr? ;`: the value, as `ReturnValue` checks it, then `;`. A
     * `void` function's return is followed at once by `;`, any other's is not.
     */
    method StmReturn() returns (r: Outcome)
      requires CursorOk() && FnOwner(st.domains, owner)
      modifies this`pos, this`consumed
      ensures CursorOk()
      ensures r == Ok(false) <==> CodeAt(old(pos)) != Return
      ensures r == Ok(false) ==> pos == old(pos)
      ensures r == Ok(true) ==>
        && pos > old(pos) + 1
        && (SymAt(st.domains, owner.value).ty.tb.TbVoid? <==> CodeAt(old(pos) + 1) == Semicolon)
      ensures r == Ok(true) ==> CodeAt(pos - 1) == Semicolon
    {
      var ok := Consume(Return);
      if !ok {
        return Ok(false);
      }
      r := ReturnTail(SymAt(st.domains, owner.value).ty);
    }

    /** `expr ;`: the last alternative of stm; an expression without its `;` is fatal. */
    method StmExpr() returns (r: Outcome)
      requires CursorOk()
      modifies this`pos, this`consumed
      ensures CursorOk()
      ensures r == Ok(false) <==> !StartsExpr(CodeAt(old(pos)))
      ensures r == Ok(false) ==> pos == old(pos)
      ensures r == Ok(true) ==> pos > old(pos) && CodeAt(pos - 1) == Semicolon
    {
      var m :- Expr();
      if !m {
        return Ok(false);
      }
      var ok := Consume(Semicolon);
      if !ok {
        return Fail(Missing(Semicolon));
      }
      return Ok(true);
    }

    /**
     * The two alternatives of stm that end in `;`, `return` and `expr ;`.
     * Neither declares anything.
     */
    method StmSimple() returns (r: Outcome)
      requires CursorOk() && FnOwner(st.domains, owner)
      modifies this`pos, this`consumed
      ensures CursorOk()
      ensures r == Ok(false) <==> !StartsSimple(CodeAt(old(pos)))
      ensures r == Ok(false) ==> pos == old(pos)
      ensures r == Ok(true) ==> pos > old(pos) && CodeAt(pos - 1) == Semicolon
    {
      r := StmReturn();
      if r == Ok(false) {
        r := StmExpr();
      }
    }

    /**
     * The three alternatives of stm that hold a statement: a block in a
     * domain of its own, `if` and `while`.
     */
    method StmNested() returns (r: Outcome)
      requires CursorOk() && FnOwner(st.domains, owner)
      modifies this`pos, this`consumed, st
      ensures CursorOk()
      ensures r == Ok(false) <==> !StartsNested(CodeAt(old(pos)), CodeAt(old(pos) + 1))
      ensures r == Ok(false) ==> pos == old(pos) && st.domains == old(st.domains)
      ensures r == Ok(true) ==>
        pos > old(pos) && BodyEvolved(old(st.domains), st.domains, owner, false)
      decreases |tokens| - pos, 42
    {
      var m :- StmCompound(true);
      if m {
        return Ok(true);
      }
      m :- StmIf();
      if m {
        return Ok(true);
      }
      r := StmWhile();
    }

    /**
     * stm: a block in a domain of its own, `if`, `while`, `return`, or
     * `expr ;`. What it declares only grows the function's locals.
     */
    method Stm() returns (r: Outcome)
      requires CursorOk() && FnOwner(st.domains, owner)
      modifies this`pos, this`consumed, st
      ensures CursorOk()
      ensures r == Ok(false) <==> !StartsStm(CodeAt(old(pos)), CodeAt(old(pos) + 1))
      ensures r == Ok(false) ==> pos == old(pos) && st.domains == old(st.domains)
      ensures r == Ok(true) ==>
        pos > old(pos) && BodyEvolved(old(st.domains), st.domains, owner, false)
      ensures r == Ok(true) && StartsSimple(CodeAt(old(pos))) ==> CodeAt(pos - 1) == Semicolon
      decreases |tokens| - pos, 43
    {
      ghost var c, next := CodeAt(pos), CodeAt(pos + 1);
      r := StmNested();
      if r == Ok(true) {
        NestedNotSimple(c, next);
      } else if r == Ok(false) {
        assert StartsStm(c, next) == StartsSimple(c);
        r := StmSimple();
        EvolvedRefl(st.domains, owner, false);
      }
    }

    /** One item of a block: a variable definition or else a statement. */
    method BlockItem() returns (r: Outcome)
      requires CursorOk() && FnOwner(st.domains, owner)
      modifies this`pos, this`consumed, st
      ensures CursorOk()
      ensures r == Ok(false) <==>
        !StartsType(CodeAt(old(pos)), CodeAt(old(pos) + 1)) && !StartsStm(CodeAt(old(pos)), CodeAt(old(pos) + 1))
      ensures r == Ok(false) ==> pos == old(pos) && st.domains == old(st.domains)
      ensures r == Ok(true) ==>
        pos > old(pos) && BodyEvolved(old(st.domains), st.domains, owner, true)
      decreases |tokens| - pos, 44
    {
      var v :- VarDef();
      if v {
        return Ok(true);
      }
      var s :- Stm();
      if s {
        EvolvedWeaken(old(st.domains), st.domains, owner);
      }
      return Ok(s);
    }

    /** `(varDef | stm)*`: the items of a block, up to the first that is neither. */
    method BlockItems() returns (r: Outcome)
      requires CursorOk() && FnOwner(st.domains, owner)
      modifies this`pos, this`consumed, st
      ensures CursorOk()
      ensures r.Ok? ==> r.matched && pos >= old(pos) && BodyEvolved(old(st.domains), st.domains, owner, true)
      decreases |tokens| - pos, 45
    {
      EvolvedRefl(st.domains, owner, true);
      while true
        invariant CursorOk() && pos >= old(pos)
        invariant BodyEvolved(old(st.domains), st.domains, owner, true)
        decreases |tokens| - pos
      {
        ghost var before := st.domains;
        var item :- BlockItem();
        if !item {
          break;
        }
        EvolvedTrans(old(st.domains), before, st.domains, owner, true, true);
      }
      return Ok(true);
    }

    /**
     * stmCompound: `{ (varDef | stm)* }`. With `newDomain` the block's
     * declarations live in a domain of their own, dropped at `}`, so that
     * afterwards only the function's locals have grown; without it (a
     * function body) they also stay in the current domain.
     */
    method StmCompound(newDomain: bool) returns (r: Outcome)
      requires CursorOk() && FnOwner(st.domains, owner)
      modifies this`pos, this`consumed, st
      ensures CursorOk()
      ensures r == Ok(false) <==> CodeAt(old(pos)) != LAcc
      ensures r == Ok(false) ==> pos == old(pos) && st.domains == old(st.domains)
      ensures r == Ok(true) ==>
        pos > old(pos) && BodyEvolved(old(st.domains), st.domains, owner, !newDomain)
      decreases |tokens| - pos, 41
    {
      var ok := Consume(LAcc);
      if !ok {
        return Ok(false);
      }
      if newDomain {
        r := InnerBlock();
      } else {
        r := BlockRest();
      }
    }

    /** The items and the closing `}` of a block, in the current domain. */
    method BlockRest() returns (r: Outcome)
      requires CursorOk() && FnOwner(st.domains, owner)
      modifies this`pos, this`consumed, st
      ensures CursorOk()
      ensures r.Ok? ==> r.matched && pos > old(pos) && BodyEvolved(old(st.domains), st.domains, owner, true)
      ensures r.Ok? ==> CodeAt(pos - 1) == RAcc
      decreases |tokens| - pos, 46
    {
      var items :- BlockItems();
      var ok := Consume(RAcc);
      if !ok {
        return Fail(Missing(RAcc));
      }
      return Ok(true);
    }

    /** The items and the closing `}` of a block in a domain of its own, dropped at the end. */
    method InnerBlock() returns (r: Outcome)
      requires CursorOk() && FnOwner(st.domains, owner)
      modifies this`pos, this`consumed, st
      ensures CursorOk()
      ensures r.Ok? ==> r.matched && pos > old(pos) && BodyEvolved(old(st.domains), st.domains, owner, false)
      decreases |tokens| - pos, 47
    {
      ghost var ds0 := st.domains;
      st.PushDomain();
      r := BlockRest();
      if r.Ok? {
        BodyDrop(ds0, [], st.domains, owner, true);
        st.DropDomain();
      }
    }

    // -------------------------------------------------------------------------
    // The unit

    /** unit: `(structDef | fnDef | varDef)* END`; it holds when END follows the definitions. */
    method Unit() returns (r: Outcome)
      requires CursorOk() && OwnerValid(st.domains, owner)
      modifies this, st
      ensures r == Ok(true) ==> pos == |tokens|
      ensures r == Ok(false) ==> CursorOk() && tokens[pos].code != End
    {
      while true
        invariant CursorOk() && OwnerValid(st.domains, owner)
        decreases |tokens| - pos
      {
        var s :- StructDef();
        if !s {
          var f :- FnDef();
          if !f {
            var v :- VarDef();
            if !v {
              break;
            }
          }
        }
      }
      EndIsLast(tokens, pos);
      var ok := Consume(End);
      return Ok(ok);
    }

    /** parse: from the first token, the whole list through END must be a unit, else a syntax error. */
    method Parse() returns (r: Outcome)
      requires TokensOk(tokens) && OwnerValid(st.domains, owner)
      modifies this, st
      ensures r.Ok? ==> r.matched && pos == |tokens|
    {
      pos := 0;
      var u :- Unit();
      if !u {
        return Fail(SyntaxError);
      }
      return Ok(true);
    }
  }
}
