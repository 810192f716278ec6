/**
 * Symbols, domains and the type-size rules (ad.c).
 *
 * A Symbol is a value; the linked lists of ad.c (domain symbols, function
 * parameters and locals, struct members) are sequences in insertion order.
 * The global `symTable` chain is the field `domains` of a SymTable object,
 * innermost domain last.
 */
module Ad {
  import opened Tokens

  const IntSize: nat := 4      // sizeof(int)
  const DoubleSize: nat := 8   // sizeof(double)
  const CharSize: nat := 1     // sizeof(char)
  const PointerSize: nat := 8  // sizeof(void*)

  /**
   * The base of a type. A struct base carries the name and the member list of
   * the struct symbol it refers to (what `t->s->name` and `t->s->structMembers`
   * give in the source).
   */
  datatype TypeBase = TbInt | TbDouble | TbChar | TbVoid | TbStruct(name: string, members: seq<Symbol>)

  /** `n`: -1 for a scalar, 0 for an array without a dimension, otherwise the element count. */
  datatype Type = Type(tb: TypeBase, n: int)

  datatype SymKind = SkVar | SkParam | SkFn | SkStruct

  /**
   * A symbol. `owner` is the name of the function or struct that owns it;
   * `hasStorage` stands for a non-null `varMem`. A struct symbol keeps its
   * members in its own type, whose base refers back to the struct itself.
   */
  datatype Symbol = Symbol(
    name: string,
    kind: SymKind,
    ty: Type,
    owner: Option<string>,
    hasStorage: bool,
    varIdx: int,
    paramIdx: int,
    params: seq<Symbol>,
    locals: seq<Symbol>)

  /** The all-zero type that `memset` leaves in a fresh symbol (TB_INT is the first base). */
  const ZeroType: Type := Type(TbInt, 0)

  /** The members of a struct symbol; empty for a symbol of any other kind. */
  function Members(s: Symbol): seq<Symbol>
  {
    if s.ty.tb.TbStruct? then s.ty.tb.members else []
  }

  // ---------------------------------------------------------------------------
  // Type sizes

  /** Size in bytes of the base of a type; a struct is the sum of its members' sizes, no padding. */
  function BaseSizeOf(t: Type): (size: int)
    ensures size >= 0
    decreases t, 0
  {
    match t.tb
    case TbInt => IntSize
    case TbDouble => DoubleSize
    case TbChar => CharSize
    case TbVoid => 0
    case TbStruct(_, ms) => SumSizes(ms)
  }

  /** Size in bytes of a type, arrays included; an array without a dimension is a pointer. */
  function SizeOf(t: Type): (size: int)
    ensures size >= 0
    decreases t, 1
  {
    if t.n < 0 then BaseSizeOf(t)
    else if t.n == 0 then PointerSize
    else t.n * BaseSizeOf(t)
  }

  /** The sum of the sizes of a list of symbols, in list order. */
  function SumSizes(ms: seq<Symbol>): (size: int)
    ensures size >= 0
    decreases ms
  {
    if ms == [] then 0 else SizeOf(ms[0].ty) + SumSizes(ms[1..])
  }

  /** Appending one member grows the running struct size by exactly that member's size. */
  lemma {:induction false} SumSizesAppend(ms: seq<Symbol>, m: Symbol)
    ensures SumSizes(ms + [m]) == SumSizes(ms) + SizeOf(m.ty)
    decreases |ms|
  {
    if ms == [] {
      assert [m][1..] == [];
    } else {
      assert (ms + [m])[1..] == ms[1..] + [m];
      SumSizesAppend(ms[1..], m);
    }
  }

  /** The struct size is the sum over any split of its member list. */
  lemma {:induction false} SumSizesConcat(a: seq<Symbol>, b: seq<Symbol>)
    ensures SumSizes(a + b) == SumSizes(a) + SumSizes(b)
    decreases |a|
  {
    if a == [] {
      assert a + b == b;
    } else {
      assert (a + b)[1..] == a[1..] + b;
      SumSizesConcat(a[1..], b);
    }
  }

  /** typeBaseSize: the loop over the struct members adds up their typeSize. */
  method TypeBaseSize(t: Type) returns (size: int)
    ensures size == BaseSizeOf(t)
    decreases t, 0
  {
    match t.tb {
      case TbInt => size := IntSize;
      case TbDouble => size := DoubleSize;
      case TbChar => size := CharSize;
      case TbVoid => size := 0;
      case TbStruct(_, ms) =>
        size := 0;
        var k := 0;
        while k < |ms|
          invariant 0 <= k <= |ms|
          invariant size == SumSizes(ms[..k])
        {
          var s := TypeSize(ms[k].ty);
          SumSizesAppend(ms[..k], ms[k]);
          assert ms[..k + 1] == ms[..k] + [ms[k]];
          size := size + s;
          k := k + 1;
        }
        assert ms[..k] == ms;
    }
  }

  /** typeSize: a scalar is its base size, `[]` a pointer, `[n]` n elements of the base. */
  method TypeSize(t: Type) returns (size: int)
    ensures size == SizeOf(t)
    decreases t, 1
  {
    if t.n < 0 {
      size := TypeBaseSize(t);
      return;
    }
    if t.n == 0 {
      size := PointerSize;
      return;
    }
    var b := TypeBaseSize(t);
    size := t.n * b;
  }

  // ---------------------------------------------------------------------------
  // Symbols and symbol lists

  /** newSymbol: every field is zero except the name and the kind. */
  function NewSymbol(name: string, kind: SymKind): (s: Symbol)
    ensures s.name == name && s.kind == kind
    ensures s.ty == ZeroType && s.owner == None && !s.hasStorage
    ensures s.varIdx == 0 && s.paramIdx == 0 && s.params == [] && s.locals == []
  {
    Symbol(name, kind, ZeroType, None, false, 0, 0, [], [])
  }

  /**
   * dupSymbol: a copy with every field equal to the original's. The cleared
   * `next` link has no counterpart: a symbol's successor is its list position.
   */
  function DupSymbol(s: Symbol): (d: Symbol)
    ensures d == s
  {
    s
  }

  /** addSymbolToList: appends at the tail and keeps every earlier element in place. */
  function AddSymbolToList(list: seq<Symbol>, s: Symbol): (r: seq<Symbol>)
    ensures |r| == |list| + 1
    ensures r[..|list|] == list && r[|list|] == s
  {
    list + [s]
  }

  /** symbolsLen: counts the nodes of a list. */
  method SymbolsLen(list: seq<Symbol>) returns (n: nat)
    ensures n == |list|
  {
    n := 0;
    var rest := list;
    while rest != []
      invariant n + |rest| == |list|
    {
      n := n + 1;
      rest := rest[1..];
    }
  }

  /** addFnParam: the new parameter's index is the count of earlier parameters; a copy is appended. */
  method AddFnParam(fn: Symbol, name: string, t: Type) returns (fn': Symbol, param: Symbol)
    ensures param == NewSymbol(name, SkParam).(ty := t, paramIdx := |fn.params|)
    ensures fn' == fn.(params := fn.params + [param])
  {
    param := NewSymbol(name, SkParam);
    param := param.(ty := t);
    var count := SymbolsLen(fn.params);
    param := param.(paramIdx := count);
    fn' := fn.(params := AddSymbolToList(fn.params, DupSymbol(param)));
  }

  /** Parameters numbered by position stay so numbered after addFnParam. */
  lemma {:induction false} AddFnParamKeepsIndexing(fn: Symbol, fn': Symbol, param: Symbol)
    requires forall k :: 0 <= k < |fn.params| ==> fn.params[k].paramIdx == k
    requires param.paramIdx == |fn.params| && fn'.params == fn.params + [param]
    ensures forall k :: 0 <= k < |fn'.params| ==> fn'.params[k].paramIdx == k
  {
    forall k | 0 <= k < |fn'.params|
      ensures fn'.params[k].paramIdx == k
    {
      if k < |fn.params| {
        assert fn'.params[k] == fn.params[k];
      }
    }
  }

  // ---------------------------------------------------------------------------
  // Lookup

  /** The first symbol of a domain, in insertion order, with the given name. */
  function FindInList(d: seq<Symbol>, name: string): (r: Option<Symbol>)
    ensures r.Some? ==> r.value in d && r.value.name == name
    ensures r.None? <==> forall s :: s in d ==> s.name != name
  {
    if d == [] then None
    else if d[0].name == name then Some(d[0])
    else FindInList(d[1..], name)
  }

  /** The symbol found in a domain is the earliest one carrying the name. */
  lemma {:induction false} FindInListIsFirst(d: seq<Symbol>, name: string, k: nat)
    requires k < |d| && d[k].name == name
    requires forall j :: 0 <= j < k ==> d[j].name != name
    ensures FindInList(d, name) == Some(d[k])
  {
    if k > 0 {
      assert d[0].name != name;
      FindInListIsFirst(d[1..], name, k - 1);
    }
  }

  /** findSymbolInDomain: walks one domain and returns the first symbol with that name. */
  method FindSymbolInDomain(d: seq<Symbol>, name: string) returns (r: Option<Symbol>)
    ensures r == FindInList(d, name)
  {
    var k := 0;
    while k < |d|
      invariant 0 <= k <= |d|
      invariant forall j :: 0 <= j < k ==> d[j].name != name
    {
      if d[k].name == name {
        FindInListIsFirst(d, name, k);
        return Some(d[k]);
      }
      k := k + 1;
    }
    r := None;
  }

  /** Lookup through the domain chain, innermost (last) domain first. */
  function FindInStack(ds: seq<seq<Symbol>>, name: string): (r: Option<Symbol>)
    ensures r.Some? ==> r.value.name == name
    ensures r.None? <==> forall k :: 0 <= k < |ds| ==> FindInList(ds[k], name).None?
    decreases |ds|
  {
    if ds == [] then None
    else match FindInList(ds[|ds| - 1], name)
      case Some(s) => Some(s)
      case None => FindInStack(ds[..|ds| - 1], name)
  }

  /**
   * Shadowing: the symbol found is the one of the innermost domain that has
   * the name at all; every more deeply nested domain lacks it.
   */
  lemma {:induction false} FindInStackShadowing(ds: seq<seq<Symbol>>, name: string, k: nat)
    requires k < |ds| && FindInList(ds[k], name).Some?
    requires forall j :: k < j < |ds| ==> FindInList(ds[j], name).None?
    ensures FindInStack(ds, name) == FindInList(ds[k], name)
    decreases |ds|
  {
    if k < |ds| - 1 {
      var init := ds[..|ds| - 1];
      assert FindInList(ds[|ds| - 1], name).None?;
      forall j | k < j < |init| ensures FindInList(init[j], name).None? {
        assert init[j] == ds[j];
      }
      FindInStackShadowing(init, name, k);
    }
  }

  /** One step of the lookup: the domain at `d - 1` is searched before the ones under it. */
  lemma FindInStackStep(ds: seq<seq<Symbol>>, name: string, d: nat)
    requires 0 < d <= |ds|
    ensures FindInStack(ds[..d], name) ==
      if FindInList(ds[d - 1], name).Some? then FindInList(ds[d - 1], name) else FindInStack(ds[..d - 1], name)
  {
    assert ds[..d][..d - 1] == ds[..d - 1];
  }

  /** Opening an empty domain hides nothing, and dropping it restores every lookup. */
  lemma PushHidesNothing(ds: seq<seq<Symbol>>, name: string)
    ensures FindInStack(ds + [[]], name) == FindInStack(ds, name)
  {
    assert (ds + [[]])[..|ds|] == ds;
  }

  // ---------------------------------------------------------------------------
  // The domain stack

  /** The chain of domains of ad.c: `domains[|domains| - 1]` is `symTable`. */
  class SymTable {
    var domains: seq<seq<Symbol>>

    /** No domain is active before the first pushDomain. */
    constructor ()
      ensures domains == []
    {
      domains := [];
    }

    /** The symbols of the current domain. */
    function Current(): seq<Symbol>
      reads this
      requires domains != []
    {
      domains[|domains| - 1]
    }

    /** pushDomain: a new, empty domain becomes current, the previous one its parent. */
    method PushDomain()
      modifies this
      ensures domains == old(domains) + [[]]
    {
      domains := domains + [[]];
    }

    /** dropDomain: the parent of the current domain becomes current again. */
    method DropDomain()
      requires domains != []
      modifies this
      ensures domains == old(domains)[..|old(domains)| - 1]
    {
      domains := domains[..|domains| - 1];
    }

    /** addSymbolToDomain on the current domain: appended at its tail, nothing else changes. */
    method AddSymbolToDomain(s: Symbol)
      requires domains != []
      modifies this
      ensures domains == old(domains)[|old(domains)| - 1 := old(Current()) + [s]]
    {
      domains := domains[..|domains| - 1] + [AddSymbolToList(Current(), s)];
    }

    /** A write through a pointer to a symbol that lives in some domain. */
    method SetSymbol(depth: nat, index: nat, s: Symbol)
      requires depth < |domains| && index < |domains[depth]|
      modifies this
      ensures domains == old(domains)[depth := old(domains)[depth][index := s]]
    {
      domains := domains[depth := domains[depth][index := s]];
    }

    /** addExtFn without its entry point: a function symbol with the given return type. */
    method AddExtFn(name: string, ret: Type) returns (fn: Symbol)
      requires domains != []
      modifies this
      ensures fn == NewSymbol(name, SkFn).(ty := ret)
      ensures |domains| == |old(domains)|
      ensures domains[..|domains| - 1] == old(domains)[..|domains| - 1]
      ensures Current() == old(Current()) + [fn]
    {
      fn := NewSymbol(name, SkFn);
      fn := fn.(ty := ret);
      AddSymbolToDomain(fn);
    }

    /** findSymbol: searches the current domain, then each parent in turn. */
    method FindSymbol(name: string) returns (r: Option<Symbol>)
      ensures r == FindInStack(domains, name)
    {
      var d := |domains|;
      assert domains[..d] == domains;
      while d > 0
        invariant 0 <= d <= |domains|
        invariant FindInStack(domains[..d], name) == FindInStack(domains, name)
      {
        FindInStackStep(domains, name, d);
        r := FindSymbolInDomain(domains[d - 1], name);
        if r.Some? {
          return;
        }
        d := d - 1;
      }
      r := None;
    }
  }
}
