/** Laws of name resolution: it survives later captures, it survives an object giving up its late
    bound frame, and it depends only on the names an expression mentions. */
module ResolutionLaws {
  import opened Options
  import opened Syntax
  import opened Resolution

  lemma {:induction false} ConstFree(es: seq<Expr>)
    requires AllTrivial(es)
    ensures FVs(es) == {}
    decreases |es|
  {
    if es != [] { ConstFree(es[..|es| - 1]); }
  }

  // ---------------------------------------------------------------- growing capture packs

  /** `v1` is `v0` after more captures were appended. */
  ghost predicate Grows(v0: View, v1: View) {
    && v0.caps <= v1.caps
    && v1.first == v0.first && v1.n == v0.n && v1.hole == v0.hole && v1.sup == v0.sup
  }

  lemma IdsGrow(sh: Shape, v0: View, v1: View)
    requires Grows(v0, v1) && ShapeOk(sh, v0)
    ensures ShapeOk(sh, v1) && Ids(sh, v1) == Ids(sh, v0)
    ensures forall free :: FrameOk(sh, v0, free) ==> FrameOk(sh, v1, free)
  {
    forall i | 0 <= i < |sh.captures|
      ensures IdOf(v1, sh.captures[i]) == IdOf(v0, sh.captures[i])
    {
      assert IdOf(v0, sh.captures[i]).Some?;
    }
  }

  /** A slot issued once keeps denoting the same binder however many captures follow. */
  lemma {:induction false} ResGrows(e: Expr, le: LExpr, sc: Scope, v0: View, v1: View)
    requires Grows(v0, v1) && Res(e, le, sc, v0)
    ensures Res(e, le, sc, v1)
    decreases e, 1, 0
  {
    match e
    case Node(op, kids) =>
      forall i | 0 <= i < |kids| ensures Res(kids[i], le.kids[i], sc, v1) {
        ResGrows(kids[i], le.kids[i], sc, v0, v1);
      }
    case Arr(items) =>
      if !AllTrivial(items) { IdsGrow(le.shape, v0, v1); }
    case Local(binds, body) =>
      if binds == [] { ResGrows(body, le, sc, v0, v1); } else { IdsGrow(le.shape, v0, v1); }
    case Fn(_, _) =>
      if !le.LIdentity? { IdsGrow(le.shape, v0, v1); }
    case Obj(def) => IdsGrow(le.def.shape, v0, v1);
    case Extend(base, def) =>
      ResGrows(base, le.base, sc, v0, v1);
      IdsGrow(le.def.shape, v0, v1);
    case Comp(_, _) => ResSpecsGrows(e, le, 0, sc, v0, v1, v0, v1, {});
    case _ =>
  }

  lemma ResUseGrows(e: Expr, le: LExpr, sh: Shape, sc: Scope, v0: View, v1: View)
    requires Grows(v0, v1) && ResUse(e, le, sh, sc, v0)
    ensures ResUse(e, le, sh, sc, v1)
  {
    IdsGrow(sh, v0, v1);
  }

  lemma {:induction false} ResSpecsGrows(c: Expr, lc: LExpr, k: nat, sc: Scope, v0: View, v1: View, w0: View, w1: View,
                                        bound: set<Name>)
    requires c.Comp? && lc.LComp? && |lc.specs| == |c.specs| && k <= |c.specs|
    requires Grows(v0, v1) && Grows(w0, w1) && ResSpecs(c, lc, k, sc, v0, w0, bound)
    ensures ResSpecs(c, lc, k, sc, v1, w1, bound)
    decreases c, 0, |c.specs| - k
  {
    if k == |c.specs| {
      IdsGrow(lc.vshape, v0, v1);
    } else {
      match c.specs[k]
      case Cond(cond) =>
        ResGrows(cond, lc.specs[k].cond, sc, v0, v1);
        ResSpecsGrows(c, lc, k + 1, sc, v0, v1, w0, w1, bound);
      case For(x, over) =>
        var ls := lc.specs[k];
        IdsGrow(ls.shape, v0, v1);
        if ls.inv { ResGrows(over, ls.over, sc, w0, w1); } else { ResGrows(over, ls.over, sc, v0, v1); }
        var v' := EnterView(v0, ls.shape, sc.next);
        ResSpecsGrows(c, lc, k + 1, Bind1(sc, Id(x)), v', v', w0, w1, bound + {Id(x)});
    }
  }

  // ---------------------------------------------------------------- objects that never look at themselves

  lemma InFVs(es: seq<Expr>, i: nat)
    requires i < |es|
    ensures FV(es[i]) <= FVs(es)
  {
    if i < |es| - 1 { InFVs(es[..|es| - 1], i); }
  }

  lemma InFVBinds(bs: seq<Bind>, i: nat)
    requires i < |bs|
    ensures FV(bs[i].value) <= FVBinds(bs)
  {
    if i < |bs| - 1 { InFVBinds(bs[..|bs| - 1], i); }
  }

  lemma InFVParams(ps: seq<Param>, i: nat)
    requires i < |ps|
    ensures FVParam(ps[i]) <= FVParams(ps)
  {
    if i < |ps| - 1 { InFVParams(ps[..|ps| - 1], i); }
  }

  ghost function NoSup(v: View): View { v.(sup := false) }

  lemma IdsNoSup(sh: Shape, v: View)
    requires ShapeOk(sh, v)
    ensures ShapeOk(sh, NoSup(v)) && Ids(sh, NoSup(v)) == Ids(sh, v)
    ensures UseView(NoSup(v), sh) == NoSup(UseView(v, sh))
    ensures forall first :: EnterView(NoSup(v), sh, first) == NoSup(EnterView(v, sh, first))
    ensures forall free :: FrameOk(sh, v, free) ==> FrameOk(sh, NoSup(v), free)
  {
    assert forall s :: IdOf(NoSup(v), s) == IdOf(v, s);
  }

  ghost function Holed(v: View): View { v.(hole := true) }

  lemma FrameHoled(sh: Shape, v: View, free: set<nat>)
    requires FrameOk(sh, v, free) && !v.hole && v.first !in free
    ensures FrameOk(sh, Holed(v), free) && Ids(sh, Holed(v)) == Ids(sh, v)
    ensures forall first :: EnterView(Holed(v), sh, first) == EnterView(v, sh, first)
  {
    forall i | 0 <= i < |sh.captures|
      ensures IdOf(Holed(v), sh.captures[i]) == IdOf(v, sh.captures[i])
    {
      assert IdOf(v, sh.captures[i]).value in free;
    }
  }

  lemma UseHoled(sh: Shape, v: View)
    requires CapsOnly(sh) && ShapeOk(sh, v)
    ensures ShapeOk(sh, Holed(v)) && UseView(Holed(v), sh) == Holed(UseView(v, sh))
  {
    forall i | 0 <= i < |sh.captures|
      ensures IdOf(Holed(v), sh.captures[i]) == IdOf(v, sh.captures[i])
    {
      assert IdOf(v, sh.captures[i]).Some?;
    }
  }

  /** Contents that never mention the first binder of their frame resolve without its cell: an
      object whose members use neither `self`, `super` nor (when outermost) `$` need not fill it. */
  lemma {:induction false} ResHoled(e: Expr, le: LExpr, sc: Scope, v: View)
    requires Res(e, le, sc, v) && !v.hole && v.first !in FreeIds(e, sc) && v.first < sc.next
    ensures Res(e, le, sc, Holed(v))
    decreases e, 1, 0
  {
    match e
    case Ref(n) => assert n in FV(e);
    case Node(op, kids) =>
      forall i | 0 <= i < |kids| ensures Res(kids[i], le.kids[i], sc, Holed(v)) {
        InFVs(kids, i);
        ResHoled(kids[i], le.kids[i], sc, v);
      }
    case Arr(items) =>
      if !AllTrivial(items) {
        UseHoled(le.shape, v);
        forall i | 0 <= i < |items| ensures Res(items[i], le.items[i], sc, Holed(UseView(v, le.shape))) {
          InFVs(items, i);
          ResHoled(items[i], le.items[i], sc, UseView(v, le.shape));
        }
      }
    case Local(binds, body) =>
      if binds == [] {
        assert FV(e) == FV(body) by { assert NameSet(Names(binds)) == {}; }
        ResHoled(body, le, sc, v);
      } else {
        FrameHoled(le.shape, v, FreeIds(e, sc));
      }
    case Fn(params, body) =>
      if !le.LIdentity? { FrameHoled(le.shape, v, FreeIds(e, sc)); }
    case Obj(def) => ResObjHoled(def, le.def, sc, v);
    case Extend(base, def) =>
      ResHoled(base, le.base, sc, v);
      ResObjHoled(def, le.def, sc, v);
    case Comp(_, _) => ResSpecsHoled(e, le, 0, sc, v, Holed(v), v, {});
    case _ =>
  }

  lemma ResObjHoled(def: ObjBody, ldef: LObjBody, sc: Scope, v: View)
    requires ResObj(def, ldef, sc, v) && !v.hole && v.first !in IdsOf(FVObj(def), sc)
    ensures ResObj(def, ldef, sc, Holed(v))
  {
    FrameHoled(ldef.shape, v, IdsOf(FVObj(def), sc));
  }

  lemma {:induction false} ResUseHoled(e: Expr, le: LExpr, sh: Shape, sc: Scope, v: View)
    requires ResUse(e, le, sh, sc, v) && !v.hole && v.first !in FreeIds(e, sc) && v.first < sc.next
    ensures ResUse(e, le, sh, sc, Holed(v))
    decreases e, 2, 0
  {
    UseHoled(sh, v);
    ResHoled(e, le, sc, UseView(v, sh));
  }

  /** `v1` is `v` with a hole when the walk is still in the comprehension's own frame, and `v`
      itself once an iteration frame has been entered. */
  lemma {:induction false} ResSpecsHoled(c: Expr, lc: LExpr, k: nat, sc: Scope, v: View, v1: View, v0: View, bound: set<Name>)
    requires c.Comp? && lc.LComp? && |lc.specs| == |c.specs| && k <= |c.specs|
    requires ResSpecs(c, lc, k, sc, v, v0, bound) && !v0.hole && v0.first < sc.next
    requires v1 == v || (v1 == Holed(v) && v == v0)
    requires v0.first !in IdsOf(FVSpecs(c, k), sc)
    ensures ResSpecs(c, lc, k, sc, v1, Holed(v0), bound)
    decreases c, 0, |c.specs| - k
  {
    if k == |c.specs| {
      if v1 != v { ResUseHoled(c.value, lc.value, lc.vshape, sc, v); }
    } else {
      match c.specs[k]
      case Cond(cond) =>
        if v1 != v { ResHoled(cond, lc.specs[k].cond, sc, v); }
        ResSpecsHoled(c, lc, k + 1, sc, v, v1, v0, bound);
      case For(x, over) =>
        var ls := lc.specs[k];
        if v1 != v { FrameHoled(ls.shape, v, IdsOf(FVSpecs(c, k), sc)); }
        if ls.inv { ResHoled(over, ls.over, sc, v0); } else if v1 != v { ResHoled(over, ls.over, sc, v); }
        var v' := EnterView(v, ls.shape, sc.next);
        var sc' := Bind1(sc, Id(x));
        assert v0.first !in IdsOf(FVSpecs(c, k + 1), sc') by {
          forall n | n in FVSpecs(c, k + 1) && n in sc'.ids ensures sc'.ids[n] != v0.first {
            if n != Id(x) { assert n in FVSpecs(c, k); }
          }
        }
        ResSpecsHoled(c, lc, k + 1, sc', v', v', v0, bound + {Id(x)});
    }
  }

  // ---------------------------------------------------------------- only the mentioned names matter

  ghost predicate Agree(sc: Scope, sc': Scope, ns: set<Name>) {
    && sc.next == sc'.next
    && forall n :: n in ns ==> (n in sc.ids <==> n in sc'.ids) && (n in sc.ids ==> sc.ids[n] == sc'.ids[n])
  }

  lemma {:induction false} AgreeBindAll(sc: Scope, sc': Scope, ns: seq<Name>, free: set<Name>)
    requires Agree(sc, sc', free - NameSet(ns))
    ensures Agree(BindAll(sc, ns), BindAll(sc', ns), free)
    decreases |ns|
  {
    if ns == [] {
      assert free - NameSet(ns) == free;
    } else {
      var ms, n := ns[..|ns| - 1], ns[|ns| - 1];
      assert ns == ms + [n];
      assert (free - {n}) - NameSet(ms) == free - NameSet(ns);
      AgreeBindAll(sc, sc', ms, free - {n});
    }
  }

  lemma AgreeBody(def: ObjBody, sc: Scope, sc': Scope)
    requires Agree(sc, sc', FVObj(def))
    ensures Agree(BodyScope(def, sc), BodyScope(def, sc'), FVBinds(def.locals) + FVBinds(def.fields))
  {
    var free := FVBinds(def.locals) + FVBinds(def.fields);
    forall n | n in free - NameSet(Names(def.locals)) && n !in {Self, Super} ensures n in FVObj(def) {}
    assert Agree(SelfScope(sc), SelfScope(sc'), free - NameSet(Names(def.locals)));
    AgreeBindAll(SelfScope(sc), SelfScope(sc'), Names(def.locals), free);
  }

  lemma AgreeIds(ns: set<Name>, sc: Scope, sc': Scope)
    requires Agree(sc, sc', ns)
    ensures IdsOf(ns, sc) == IdsOf(ns, sc')
  {}

  /** The same scope as far as `ns` goes, and the same view or, when `ns` does not mention
      `super`, the view without the enclosing object. */
  ghost predicate Move(sc: Scope, sc': Scope, v: View, v': View, ns: set<Name>) {
    Agree(sc, sc', ns) && (v' == v || (v' == NoSup(v) && Super !in ns))
  }

  /** Resolution depends on scope and enclosing object only through the names mentioned. */
  lemma {:induction false} ResMoves(e: Expr, le: LExpr, sc: Scope, sc': Scope, v: View, v': View)
    requires Res(e, le, sc, v) && Move(sc, sc', v, v', FV(e))
    ensures Res(e, le, sc', v')
    decreases e, 1, 0
  {
    match e
    case Node(op, kids) =>
      forall i | 0 <= i < |kids| ensures Res(kids[i], le.kids[i], sc', v') {
        InFVs(kids, i);
        ResMoves(kids[i], le.kids[i], sc, sc', v, v');
      }
    case Arr(items) =>
      if !AllTrivial(items) {
        IdsNoSup(le.shape, v);
        forall i | 0 <= i < |items| ensures Res(items[i], le.items[i], sc', UseView(v', le.shape)) {
          InFVs(items, i);
          ResMoves(items[i], le.items[i], sc, sc', UseView(v, le.shape), UseView(v', le.shape));
        }
      }
    case Local(binds, body) => ResLocalMoves(e, le, sc, sc', v, v');
    case Fn(params, body) => ResFnMoves(e, le, sc, sc', v, v');
    case Obj(def) => ResObjMoves(def, le.def, sc, sc', v, v');
    case Extend(base, def) =>
      ResMoves(base, le.base, sc, sc', v, v');
      ResObjMoves(def, le.def, sc, sc', v, v');
    case Comp(_, _) => ResSpecsMoves(e, le, 0, sc, sc', v, v', v, v', {});
    case _ =>
  }

  lemma {:induction false} ResUseMoves(e: Expr, le: LExpr, sh: Shape, sc: Scope, sc': Scope, v: View, v': View)
    requires ResUse(e, le, sh, sc, v) && Move(sc, sc', v, v', FV(e))
    ensures ResUse(e, le, sh, sc', v')
    decreases e, 2, 0
  {
    hide Res, FV, Agree;
    IdsNoSup(sh, v);
    ResMoves(e, le, sc, sc', UseView(v, sh), UseView(v', sh));
  }

  lemma {:induction false} ResBindsMoves(bs: seq<Bind>, lbs: seq<LBind>, sc: Scope, sc': Scope, v: View, v': View, off: nat)
    requires ResBinds(bs, lbs, sc, v, off) && Move(sc, sc', v, v', FVBinds(bs))
    ensures ResBinds(bs, lbs, sc', v', off)
    decreases bs, 0, 0
  {
    forall i | 0 <= i < |bs| ensures ResUse(bs[i].value, lbs[i].value, lbs[i].shape, sc', v') {
      InFVBinds(bs, i);
      ResUseMoves(bs[i].value, lbs[i].value, lbs[i].shape, sc, sc', v, v');
    }
  }

  lemma {:induction false} ResFieldsMoves(fs: seq<Bind>, lfs: seq<LField>, sc: Scope, sc': Scope, v: View)
    requires ResFields(fs, lfs, sc, v) && Agree(sc, sc', FVBinds(fs))
    ensures ResFields(fs, lfs, sc', v)
    decreases fs, 0, 0
  {
    forall i | 0 <= i < |fs| ensures ResUse(fs[i].value, lfs[i].value, lfs[i].shape, sc', v) {
      InFVBinds(fs, i);
      ResUseMoves(fs[i].value, lfs[i].value, lfs[i].shape, sc, sc', v, v);
    }
  }

  lemma {:induction false} ResLocalMoves(e: Expr, le: LExpr, sc: Scope, sc': Scope, v: View, v': View)
    requires e.Local? && Res(e, le, sc, v) && Move(sc, sc', v, v', FV(e))
    ensures Res(e, le, sc', v')
    decreases e, 0, 0
  {
    var ns := Names(e.binds);
    AgreeIds(FV(e), sc, sc');
    AgreeBindAll(sc, sc', ns, FVBinds(e.binds) + FV(e.body));
    if e.binds == [] {
      ResMoves(e.body, le, sc, sc', v, v');
    } else {
      IdsNoSup(le.shape, v);
      var u, u' := EnterView(v, le.shape, sc.next), EnterView(v', le.shape, sc.next);
      ResBindsMoves(e.binds, le.binds, BindAll(sc, ns), BindAll(sc', ns), u, u', 0);
      ResMoves(e.body, le.body, BindAll(sc, ns), BindAll(sc', ns), u, u');
    }
  }

  lemma {:induction false} ResFnMoves(e: Expr, le: LExpr, sc: Scope, sc': Scope, v: View, v': View)
    requires e.Fn? && Res(e, le, sc, v) && Move(sc, sc', v, v', FV(e))
    ensures Res(e, le, sc', v')
    decreases e, 0, 0
  {
    var ns := ParamNames(e.params);
    AgreeIds(FV(e), sc, sc');
    AgreeBindAll(sc, sc', ns, FVParams(e.params) + FV(e.body));
    var a, b := BindAll(sc, ns), BindAll(sc', ns);
    if le.LIdentity? {
      var u := View([], sc.next, 1, false, false);
      ResMoves(e.body, LSlot(SLocal(0)), a, b, u, u);
    } else {
      IdsNoSup(le.shape, v);
      var u, u' := EnterView(v, le.shape, sc.next), EnterView(v', le.shape, sc.next);
      forall i | 0 <= i < |e.params| ensures ResParam(e.params[i], le.params[i], b, u', i) {
        var p, lp := e.params[i], le.params[i];
        assert ResParam(p, lp, a, u, i);
        InFVParams(e.params, i);
        if p.default.Some? {
          ResUseMoves(p.default.value, lp.default.value.value, lp.default.value.shape, a, b, u, u');
        }
      }
      ResMoves(e.body, le.body, a, b, u, u');
    }
  }

  lemma {:induction false} ResObjMoves(def: ObjBody, ldef: LObjBody, sc: Scope, sc': Scope, v: View, v': View)
    requires ResObj(def, ldef, sc, v) && Agree(sc, sc', FVObj(def)) && (v' == v || v' == NoSup(v))
    ensures ResObj(def, ldef, sc', v')
    decreases def, 1, 0
  {
    AgreeIds(FVObj(def), sc, sc');
    AgreeBody(def, sc, sc');
    IdsNoSup(ldef.shape, v);
    var a, b, u := BodyScope(def, sc), BodyScope(def, sc'), ObjView(v, ldef, sc.next);
    assert ResBody(def, ldef, sc, u);
    ResBindsMoves(def.locals, ldef.locals, a, b, u, u, 1);
    ResFieldsMoves(def.fields, ldef.fields, a, b, u);
    assert ResBody(def, ldef, sc', u);
  }

  lemma {:induction false} ResSpecsMoves(c: Expr, lc: LExpr, k: nat, sc: Scope, sc': Scope, v: View, v': View,
                                        v0: View, v0': View, bound: set<Name>)
    requires c.Comp? && lc.LComp? && |lc.specs| == |c.specs| && k <= |c.specs|
    requires ResSpecs(c, lc, k, sc, v, v0, bound)
    requires Move(sc, sc', v, v', FVSpecs(c, k)) && Move(sc, sc', v0, v0', FVSpecs(c, k))
    ensures ResSpecs(c, lc, k, sc', v', v0', bound)
    decreases c, 0, |c.specs| - k
  {
    hide Res, FV, ResUse;
    if k == |c.specs| {
      ResUseMoves(c.value, lc.value, lc.vshape, sc, sc', v, v');
    } else {
      match c.specs[k]
      case Cond(cond) =>
        ResMoves(cond, lc.specs[k].cond, sc, sc', v, v');
        ResSpecsMoves(c, lc, k + 1, sc, sc', v, v', v0, v0', bound);
      case For(x, over) =>
        var ls := lc.specs[k];
        AgreeIds(FVSpecs(c, k), sc, sc');
        IdsNoSup(ls.shape, v);
        if ls.inv { ResMoves(over, ls.over, sc, sc', v0, v0'); } else { ResMoves(over, ls.over, sc, sc', v, v'); }
        ResSpecsMoves(c, lc, k + 1, Bind1(sc, Id(x)), Bind1(sc', Id(x)),
                      EnterView(v, ls.shape, sc.next), EnterView(v', ls.shape, sc.next), v0, v0', bound + {Id(x)});
    }
  }
}
