/**
 * How the declarations of parser.c change the domains of ad.c.
 *
 * While a function or struct body is parsed, the global `owner` points at
 * the function or struct symbol, which lives in a domain below the current
 * one. Declarations append to the current domain and to the owner's locals
 * (a function) or members (a struct); nothing else in the stack changes.
 */
module Scopes {
  import opened Tokens
  import opened Ad

  /** Where a symbol lives in the domain stack: domain `depth`, position `index`. */
  datatype SymRef = SymRef(depth: nat, index: nat)

  /** Each symbol's `varIdx` is its position in the list: the prefix is numbered and the last one comes next. */
  predicate VarsNumbered(ls: seq<Symbol>)
  {
    ls == [] || (VarsNumbered(ls[..|ls| - 1]) && ls[|ls| - 1].varIdx == |ls| - 1)
  }

  /** Each symbol's `paramIdx` is its position in the list. */
  predicate ParamsNumbered(ps: seq<Symbol>)
  {
    ps == [] || (ParamsNumbered(ps[..|ps| - 1]) && ps[|ps| - 1].paramIdx == |ps| - 1)
  }

  /** A function's locals are numbered by declaration order (ad.c `varIdx`). */
  predicate LocalsIndexed(fn: Symbol)
  {
    VarsNumbered(fn.locals)
  }

  /** A function's parameters are numbered by position (ad.c `paramIdx`). */
  predicate ParamsIndexed(fn: Symbol)
  {
    ParamsNumbered(fn.params)
  }

  /** Each struct member's `varIdx` is its byte offset: the size of the members before it. */
  predicate MemberOffsets(ms: seq<Symbol>)
  {
    ms == [] || (MemberOffsets(ms[..|ms| - 1]) && ms[|ms| - 1].varIdx == SumSizes(ms[..|ms| - 1]))
  }

  /** In a numbered list the symbol at position `k` has `varIdx` k. */
  lemma {:induction false} VarsNumberedAt(ls: seq<Symbol>, k: nat)
    requires VarsNumbered(ls) && k < |ls|
    ensures ls[k].varIdx == k
  {
    if k < |ls| - 1 {
      VarsNumberedAt(ls[..|ls| - 1], k);
    }
  }

  /** In a numbered parameter list the symbol at position `k` has `paramIdx` k. */
  lemma {:induction false} ParamsNumberedAt(ps: seq<Symbol>, k: nat)
    requires ParamsNumbered(ps) && k < |ps|
    ensures ps[k].paramIdx == k
  {
    if k < |ps| - 1 {
      ParamsNumberedAt(ps[..|ps| - 1], k);
    }
  }

  /** Member `k` of a laid-out struct sits at the size of the members before it. */
  lemma {:induction false} MemberOffsetAt(ms: seq<Symbol>, k: nat)
    requires MemberOffsets(ms) && k < |ms|
    ensures ms[k].varIdx == SumSizes(ms[..k])
  {
    if k < |ms| - 1 {
      var pre := ms[..|ms| - 1];
      MemberOffsetAt(pre, k);
      assert pre[..k] == ms[..k];
    }
  }

  /** What an owner looks like: a numbered function, or a struct whose own type lists its members. */
  predicate OwnerShape(s: Symbol)
  {
    || (s.kind == SkFn && LocalsIndexed(s) && ParamsIndexed(s))
    || (s.kind == SkStruct && s.ty.tb.TbStruct? && s.ty.n == -1 && MemberOffsets(s.ty.tb.members))
  }

  predicate Holds(ds: seq<seq<Symbol>>, o: SymRef)
  {
    o.depth < |ds| && o.index < |ds[o.depth]|
  }

  function SymAt(ds: seq<seq<Symbol>>, o: SymRef): Symbol
    requires Holds(ds, o)
  {
    ds[o.depth][o.index]
  }

  /** Some domain is open, and `owner`, if set, points below the current domain at a well-shaped owner. */
  predicate OwnerValid(ds: seq<seq<Symbol>>, o: Option<SymRef>)
  {
    ds != [] && (o.Some? ==> o.value.depth < |ds| - 1 && Holds(ds, o.value) && OwnerShape(SymAt(ds, o.value)))
  }

  /** Statements are parsed inside a function body: the owner is a function. */
  predicate FnOwner(ds: seq<seq<Symbol>>, o: Option<SymRef>)
  {
    OwnerValid(ds, o) && o.Some? && SymAt(ds, o.value).kind == SkFn
  }

  /** The `varIdx` the next variable of an owner gets: the number of locals, or the struct's size so far. */
  function NextSlot(os: Symbol): int
  {
    if os.kind == SkFn then |os.locals| else SizeOf(os.ty)
  }

  /** The owner after a variable is declared in its body. */
  function DeclareVar(os: Symbol, v: Symbol): Symbol
    requires OwnerShape(os)
  {
    if os.kind == SkFn then os.(locals := AddSymbolToList(os.locals, v))
    else os.(ty := Type(TbStruct(os.ty.tb.name, AddSymbolToList(os.ty.tb.members, v)), os.ty.n))
  }

  /** The function after a parameter is declared. */
  function DeclareParam(fn: Symbol, p: Symbol): Symbol
  {
    fn.(params := AddSymbolToList(fn.params, p))
  }

  /** The stack with the symbol at `o` replaced, as a write through the `owner` pointer does. */
  function Replace(ds: seq<seq<Symbol>>, o: SymRef, s: Symbol): (ds': seq<seq<Symbol>>)
    requires Holds(ds, o)
    ensures |ds'| == |ds| && Holds(ds', o) && SymAt(ds', o) == s
  {
    ds[o.depth := ds[o.depth][o.index := s]]
  }

  /** `s'` is `s` after declarations in its body: only its locals or struct members grew. */
  predicate Grows(s: Symbol, s': Symbol)
  {
    && s' == s.(locals := s'.locals, ty := s'.ty)
    && s.locals <= s'.locals
    && (s.kind == SkFn ==> s'.ty == s.ty)
    && s'.ty.n == s.ty.n
    && (if s.ty.tb.TbStruct? then
          s'.ty.tb.TbStruct? && s'.ty.tb.name == s.ty.tb.name && s.ty.tb.members <= s'.ty.tb.members
        else s'.ty.tb == s.ty.tb)
  }

  /**
   * `b` is `a` after declarations: same height, the owner grew, no other
   * symbol below the current domain changed, and the current domain grew at
   * its tail (`topGrows`) or is unchanged.
   */
  predicate Evolved(a: seq<seq<Symbol>>, b: seq<seq<Symbol>>, o: Option<SymRef>, topGrows: bool)
  {
    && |a| == |b| && |a| > 0
    && (o.Some? ==>
          o.value.depth < |a| - 1 && Holds(a, o.value) && Holds(b, o.value)
          && Grows(SymAt(a, o.value), SymAt(b, o.value)))
    && b[..|b| - 1] == (if o.Some? then Replace(a, o.value, SymAt(b, o.value)) else a)[..|a| - 1]
    && (if topGrows then a[|a| - 1] <= b[|b| - 1] else a[|a| - 1] == b[|b| - 1])
  }

  // ---------------------------------------------------------------------------
  // Declarations keep the owner's numbering

  /** Declaring a variable at the owner's next slot keeps locals numbered and members at their offsets. */
  lemma DeclareVarKeepsShape(os: Symbol, v: Symbol)
    requires OwnerShape(os) && v.varIdx == NextSlot(os)
    ensures OwnerShape(DeclareVar(os, v)) && Grows(os, DeclareVar(os, v))
    ensures DeclareVar(os, v).kind == os.kind && DeclareVar(os, v).name == os.name
  {
    var os' := DeclareVar(os, v);
    if os.kind == SkFn {
      assert os'.locals[..|os.locals|] == os.locals;
    } else {
      var ms, ms' := os.ty.tb.members, os'.ty.tb.members;
      assert ms'[..|ms|] == ms;
      assert os.ty.n == -1 && v.varIdx == BaseSizeOf(os.ty) == SumSizes(ms);
    }
  }

  /** Declaring a parameter at index `|params|` keeps the parameters numbered. */
  lemma DeclareParamKeepsShape(fn: Symbol, p: Symbol)
    requires OwnerShape(fn) && fn.kind == SkFn && p.paramIdx == |fn.params|
    ensures OwnerShape(DeclareParam(fn, p))
  {
    assert DeclareParam(fn, p).params[..|fn.params|] == fn.params;
  }

  // ---------------------------------------------------------------------------
  // Struct layout

  /** The members of a laid-out struct sit inside it: offset plus size never exceeds the struct's size. */
  lemma MembersInsideStruct(ms: seq<Symbol>, k: nat)
    requires MemberOffsets(ms) && k < |ms|
    ensures 0 <= ms[k].varIdx && ms[k].varIdx + SizeOf(ms[k].ty) <= SumSizes(ms)
  {
    MemberOffsetAt(ms, k);
    assert ms == ms[..k] + ms[k..];
    SumSizesConcat(ms[..k], ms[k..]);
    assert ms[k..][1..] == ms[k + 1..];
  }

  /** Members do not overlap: each one ends at or before the next one starts. */
  lemma MembersDisjoint(ms: seq<Symbol>, k: nat, m: nat)
    requires MemberOffsets(ms) && k < m < |ms|
    ensures ms[k].varIdx + SizeOf(ms[k].ty) <= ms[m].varIdx
  {
    MemberOffsetAt(ms, k);
    MemberOffsetAt(ms, m);
    var pre := ms[..m];
    assert pre == pre[..k] + pre[k..];
    SumSizesConcat(pre[..k], pre[k..]);
    assert pre[..k] == ms[..k];
    assert pre[k..][0] == ms[k];
  }

  // ---------------------------------------------------------------------------
  // The frame of a declaration sequence

  lemma ReplaceTwice(ds: seq<seq<Symbol>>, o: SymRef, x: Symbol, y: Symbol)
    requires Holds(ds, o)
    ensures Replace(Replace(ds, o, x), o, y) == Replace(ds, o, y)
  {
    assert ds[o.depth][o.index := x][o.index := y] == ds[o.depth][o.index := y];
  }

  lemma ReplaceSame(ds: seq<seq<Symbol>>, o: SymRef)
    requires Holds(ds, o)
    ensures Replace(ds, o, SymAt(ds, o)) == ds
  {
    assert ds[o.depth][o.index := SymAt(ds, o)] == ds[o.depth];
  }

  lemma {:induction false} EvolvedRefl(a: seq<seq<Symbol>>, o: Option<SymRef>, topGrows: bool)
    requires |a| > 0 && (o.Some? ==> o.value.depth < |a| - 1 && Holds(a, o.value))
    ensures Evolved(a, a, o, topGrows)
  {
    if o.Some? {
      ReplaceSame(a, o.value);
    }
  }

  /** Declarations compose: two evolutions in a row are one. */
  lemma EvolvedTrans(a: seq<seq<Symbol>>, b: seq<seq<Symbol>>, c: seq<seq<Symbol>>, o: Option<SymRef>, g1: bool, g2: bool)
    requires Evolved(a, b, o, g1) && Evolved(b, c, o, g2)
    ensures Evolved(a, c, o, g1 || g2)
  {
    var n := |a| - 1;
    if o.Some? {
      var r := o.value;
      var sb, sc := SymAt(b, r), SymAt(c, r);
      assert Replace(a, r, sb)[..n] == b[..n];
      forall k | 0 <= k < n ensures c[k] == Replace(a, r, sc)[k] {
        assert c[k] == Replace(b, r, sc)[k];
        if k == r.depth {
          assert b[k] == Replace(a, r, sb)[k];
          assert a[k][r.index := sb][r.index := sc] == a[k][r.index := sc];
        } else {
          assert b[k] == Replace(a, r, sb)[k];
        }
      }
    }
  }

  /** An evolution that leaves the current domain as it was is one that may grow it. */
  lemma EvolvedWeaken(a: seq<seq<Symbol>>, b: seq<seq<Symbol>>, o: Option<SymRef>)
    requires Evolved(a, b, o, false)
    ensures Evolved(a, b, o, true)
  {
  }

  /** Declarations in the body of an owner: it stays valid and `b` evolved from `a`, its current domain growing. */
  predicate DeclEvolved(a: seq<seq<Symbol>>, b: seq<seq<Symbol>>, o: Option<SymRef>)
  {
    OwnerValid(b, o) && Evolved(a, b, o, true)
  }

  /**
   * `b` is `a` after parameters were declared: the owner is still a numbered
   * function with its name and type, only it changed below the current
   * domain, and the current domain grew.
   */
  predicate ParamsDeclared(a: seq<seq<Symbol>>, b: seq<seq<Symbol>>, o: Option<SymRef>)
  {
    && FnOwner(a, o) && FnOwner(b, o) && |b| == |a|
    && b[..|b| - 1] == Replace(a, o.value, SymAt(b, o.value))[..|a| - 1]
    && SymAt(b, o.value).name == SymAt(a, o.value).name
    && SymAt(b, o.value).ty == SymAt(a, o.value).ty
    && a[|a| - 1] <= b[|b| - 1]
  }

  /** One step inside a function body: the owner is still a numbered function and `b` evolved from `a`. */
  predicate BodyEvolved(a: seq<seq<Symbol>>, b: seq<seq<Symbol>>, o: Option<SymRef>, topGrows: bool)
  {
    FnOwner(b, o) && Evolved(a, b, o, topGrows)
  }

  /** Dropping a block's domain inside a function body leaves a step that did not touch the current domain. */
  lemma BodyDrop(a: seq<seq<Symbol>>, t: seq<Symbol>, b: seq<seq<Symbol>>, o: Option<SymRef>, g: bool)
    requires |a| > 0 && o.Some? && o.value.depth < |a| - 1
    requires BodyEvolved(a + [t], b, o, g)
    ensures BodyEvolved(a, b[..|b| - 1], o, false)
  {
    EvolvedDrop(a, t, b, o, g);
    assert SymAt(b[..|b| - 1], o.value) == SymAt(b, o.value);
  }

  /**
   * `b` is `a` once a function's parameters and body are done and its domain
   * dropped: the function at `o` is the only symbol that changed, it kept
   * its name and type and its locals and parameters are numbered.
   */
  predicate FnDone(a: seq<seq<Symbol>>, b: seq<seq<Symbol>>, o: SymRef)
  {
    && |a| > 0 && |b| == |a| - 1 && Holds(a, o) && Holds(b, o)
    && b == Replace(a[..|a| - 1], o, SymAt(b, o))
    && var f, f' := SymAt(a, o), SymAt(b, o);
       && f'.kind == SkFn && f'.name == f.name && f'.ty == f.ty
       && LocalsIndexed(f') && ParamsIndexed(f')
  }

  /** Parameters then a body, with the function's domain dropped afterwards. */
  lemma ParamsThenBody(a: seq<seq<Symbol>>, b: seq<seq<Symbol>>, c: seq<seq<Symbol>>, o: Option<SymRef>, g: bool)
    requires ParamsDeclared(a, b, o) && BodyEvolved(b, c, o, g)
    ensures FnDone(a, c[..|c| - 1], o.value)
  {
    var r := o.value;
    var y := SymAt(c, r);
    var n := |a| - 1;
    forall k | 0 <= k < n ensures c[k] == Replace(a[..n], r, y)[k] {
      assert c[k] == Replace(b, r, y)[k];
      assert b[k] == Replace(a, r, SymAt(b, r))[k];
      if k == r.depth {
        assert a[k][r.index := SymAt(b, r)][r.index := y] == a[k][r.index := y];
      }
    }
  }

  /** Dropping the domain pushed on top of `a` leaves `a`, changed only at the owner. */
  lemma EvolvedDrop(a: seq<seq<Symbol>>, t: seq<Symbol>, b: seq<seq<Symbol>>, o: Option<SymRef>, g: bool)
    requires |a| > 0 && (o.Some? ==> o.value.depth < |a| - 1)
    requires Evolved(a + [t], b, o, g)
    ensures Evolved(a, b[..|b| - 1], o, false)
    ensures OwnerValid(b, o) ==> OwnerValid(b[..|b| - 1], o)
  {
    var b' := b[..|b| - 1];
    var n := |a| - 1;
    if o.Some? {
      var r := o.value;
      assert Holds(a, r);
      forall k | 0 <= k < |a| ensures b'[k] == Replace(a, r, SymAt(b, r))[k] {
        assert b'[k] == Replace(a + [t], r, SymAt(b, r))[k];
      }
      assert b' == Replace(a, r, SymAt(b, r));
    } else {
      assert b' == a;
    }
  }

  /**
   * `b` is `a` after variable `v` was declared: `v` is new in the current
   * domain and appended to it; with an owner, `v` takes the owner's next slot
   * and is added to its locals or members, otherwise it is a global with
   * storage of its own.
   */
  predicate VarAdded(a: seq<seq<Symbol>>, b: seq<seq<Symbol>>, o: Option<SymRef>, v: Symbol)
    requires OwnerValid(a, o)
  {
    && |b| == |a| && b[|b| - 1] == a[|a| - 1] + [v]
    && v.kind == SkVar && FindInList(a[|a| - 1], v.name).None?
    && (o.None? ==> v.hasStorage && v.owner == None && b[..|b| - 1] == a[..|a| - 1])
    && (o.Some? ==>
          var os := SymAt(a, o.value);
          && !v.hasStorage && v.owner == Some(os.name) && v.varIdx == NextSlot(os)
          && b[..|b| - 1] == Replace(a, o.value, DeclareVar(os, v))[..|a| - 1])
  }

  /**
   * `b` is `a` after parameter `p` of the owning function was declared: new in
   * the current domain and appended to it, numbered after the function's
   * parameters and added to them.
   */
  predicate ParamAdded(a: seq<seq<Symbol>>, b: seq<seq<Symbol>>, o: Option<SymRef>, p: Symbol)
    requires FnOwner(a, o)
  {
    && |b| == |a| && b[|b| - 1] == a[|a| - 1] + [p]
    && var fn := SymAt(a, o.value);
       && p.kind == SkParam
       && p.paramIdx == |fn.params| && p.owner == Some(fn.name)
       && FindInList(a[|a| - 1], p.name).None?
       && b[..|b| - 1] == Replace(a, o.value, DeclareParam(fn, p))[..|a| - 1]
  }

  /** The stack after a variable declaration, with `v` the symbol it appended. */
  predicate VarDeclared(a: seq<seq<Symbol>>, b: seq<seq<Symbol>>, o: Option<SymRef>)
  {
    && OwnerValid(a, o) && OwnerValid(b, o)
    && |b[|b| - 1]| > 0
    && VarAdded(a, b, o, b[|b| - 1][|b[|b| - 1]| - 1])
    && Evolved(a, b, o, true)
    && (FnOwner(a, o) ==> FnOwner(b, o))
  }

  /** A variable declaration is an evolution and keeps the owner valid and of the same kind. */
  lemma VarDeclEvolves(a: seq<seq<Symbol>>, b: seq<seq<Symbol>>, o: Option<SymRef>, v: Symbol)
    requires OwnerValid(a, o) && VarAdded(a, b, o, v)
    ensures Evolved(a, b, o, true) && OwnerValid(b, o)
    ensures o.Some? ==> SymAt(b, o.value).kind == SymAt(a, o.value).kind
  {
    if o.Some? {
      var r := o.value;
      var s' := DeclareVar(SymAt(a, r), v);
      DeclareVarKeepsShape(SymAt(a, r), v);
      assert b[r.depth] == Replace(a, r, s')[r.depth];
      assert SymAt(b, r) == s';
    }
  }

  /** A parameter declaration keeps the owner a numbered function, with its name and type. */
  lemma ParamDeclKeeps(a: seq<seq<Symbol>>, b: seq<seq<Symbol>>, o: Option<SymRef>, p: Symbol)
    requires FnOwner(a, o) && ParamAdded(a, b, o, p)
    ensures ParamsDeclared(a, b, o)
    ensures SymAt(b, o.value) == DeclareParam(SymAt(a, o.value), p)
  {
    var r := o.value;
    var fn' := DeclareParam(SymAt(a, r), p);
    DeclareParamKeepsShape(SymAt(a, r), p);
    assert b[r.depth] == Replace(a, r, fn')[r.depth];
  }

  /** The stack after `p` is appended to the current domain and then to the owning function's parameters. */
  function WithParam(a: seq<seq<Symbol>>, o: SymRef, p: Symbol): seq<seq<Symbol>>
    requires |a| > 0 && o.depth < |a| - 1 && Holds(a, o)
  {
    var a1 := a[|a| - 1 := a[|a| - 1] + [p]];
    Replace(a1, o, DeclareParam(SymAt(a, o), p))
  }

  /** A fresh parameter numbered after the function's parameters is declared as ParamAdded describes. */
  lemma ParamStep(a: seq<seq<Symbol>>, o: Option<SymRef>, p: Symbol)
    requires FnOwner(a, o)
    requires p.kind == SkParam && p.paramIdx == |SymAt(a, o.value).params|
    requires p.owner == Some(SymAt(a, o.value).name) && FindInList(a[|a| - 1], p.name).None?
    ensures FnOwner(WithParam(a, o.value, p), o)
    ensures ParamAdded(a, WithParam(a, o.value, p), o, p) && ParamsDeclared(a, WithParam(a, o.value, p), o)
  {
    var b := WithParam(a, o.value, p);
    assert b[..|b| - 1] == Replace(a, o.value, DeclareParam(SymAt(a, o.value), p))[..|a| - 1];
    ParamDeclKeeps(a, b, o, p);
  }

  /** The stack after `v` is declared: recorded in its owner, if any, then appended to the current domain. */
  function WithVar(a: seq<seq<Symbol>>, o: Option<SymRef>, v: Symbol): seq<seq<Symbol>>
    requires OwnerValid(a, o)
  {
    var a1 := if o.Some? then Replace(a, o.value, DeclareVar(SymAt(a, o.value), v)) else a;
    a1[|a1| - 1 := a1[|a1| - 1] + [v]]
  }

  /** A fresh variable placed as its owner dictates is declared as VarDeclared describes. */
  lemma VarStep(a: seq<seq<Symbol>>, o: Option<SymRef>, v: Symbol)
    requires OwnerValid(a, o)
    requires v.kind == SkVar && FindInList(a[|a| - 1], v.name).None?
    requires o.None? ==> v.hasStorage && v.owner == None
    requires o.Some? ==>
      && !v.hasStorage && v.owner == Some(SymAt(a, o.value).name)
      && v.varIdx == NextSlot(SymAt(a, o.value))
    ensures VarDeclared(a, WithVar(a, o, v), o)
  {
    var b := WithVar(a, o, v);
    if o.Some? {
      assert b[..|b| - 1] == Replace(a, o.value, DeclareVar(SymAt(a, o.value), v))[..|a| - 1];
    } else {
      assert b[..|b| - 1] == a[..|a| - 1];
    }
    VarDeclEvolves(a, b, o, v);
  }

  /** Parameter declarations compose. */
  lemma ParamsDeclaredTrans(a: seq<seq<Symbol>>, b: seq<seq<Symbol>>, c: seq<seq<Symbol>>, o: Option<SymRef>)
    requires ParamsDeclared(a, b, o) && ParamsDeclared(b, c, o)
    ensures ParamsDeclared(a, c, o)
  {
    var r := o.value;
    var sb, sc := SymAt(b, r), SymAt(c, r);
    forall k | 0 <= k < |a| - 1 ensures c[k] == Replace(a, r, sc)[k] {
      assert c[k] == Replace(b, r, sc)[k];
      assert b[k] == Replace(a, r, sb)[k];
      if k == r.depth {
        assert a[k][r.index := sb][r.index := sc] == a[k][r.index := sc];
      }
    }
  }

  /** `Replace` below `n` commutes with cutting the stack at `n`. */
  lemma ReplaceSlice(ds: seq<seq<Symbol>>, o: SymRef, y: Symbol, n: nat)
    requires Holds(ds, o) && o.depth < n <= |ds|
    ensures Replace(ds, o, y)[..n] == Replace(ds[..n], o, y)
  {
  }

  /** Dropping the domain pushed on top of `ds` leaves `ds` with the owner replaced by what its body made of it. */
  lemma DropOwnerDomain(ds: seq<seq<Symbol>>, o: SymRef, t: seq<Symbol>, cur: seq<seq<Symbol>>, g: bool)
    requires Evolved(ds + [t], cur, Some(o), g) && o.depth < |ds|
    ensures Holds(ds, o) && cur[..|cur| - 1] == Replace(ds, o, SymAt(cur, o))
  {
    var y := SymAt(cur, o);
    ReplaceSlice(ds + [t], o, y, |ds|);
    assert (ds + [t])[..|ds|] == ds;
  }
}
