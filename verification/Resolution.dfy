/** What it means for a lowered expression to be a correct name resolution of a source expression,
    independently of how the analyzer computes it. Binders are numbered by `LocalId`s: the id of a
    binder is the number of binders in scope when it is introduced, so ids are reused by frames
    that are not nested in one another. */
module Resolution {
  import opened Options
  import opened Syntax

  // ---------------------------------------------------------------- free names

  ghost function NameSet(xs: seq<Name>): set<Name> { set x | x in xs }

  predicate Meets(a: set<Name>, b: set<Name>) { a * b != {} }

  /** Free names. An object binds `self` and `super`, but `$` only when it is outermost, so `$`
      stays in the set and it is the scope that says what it refers to. */
  ghost function FV(e: Expr): set<Name>
    decreases e, 1, 0
  {
    match e
    case Lit(_) => {}
    case Ref(n) => {n}
    case SuperField(_) => {Super}
    case Node(_, kids) => FVs(kids)
    case Arr(items) => FVs(items)
    case Local(binds, body) => FVBinds(binds) + FV(body) - NameSet(Names(binds))
    case Fn(params, body) => FVParams(params) + FV(body) - NameSet(ParamNames(params))
    case Obj(def) => FVObj(def)
    case Extend(base, def) => FV(base) + FVObj(def)
    case Comp(_, _) => FVSpecs(e, 0)
  }

  ghost function FVs(es: seq<Expr>): set<Name>
    decreases es, 0, 0
  {
    if es == [] then {} else FVs(es[..|es| - 1]) + FV(es[|es| - 1])
  }

  ghost function FVBinds(bs: seq<Bind>): set<Name>
    decreases bs, 0, 0
  {
    if bs == [] then {} else FVBinds(bs[..|bs| - 1]) + FV(bs[|bs| - 1].value)
  }

  ghost function FVParam(p: Param): set<Name>
    decreases p, 0, 0
  {
    if p.default.Some? then FV(p.default.value) else {}
  }

  ghost function FVParams(ps: seq<Param>): set<Name>
    decreases ps, 0, 0
  {
    if ps == [] then {} else FVParams(ps[..|ps| - 1]) + FVParam(ps[|ps| - 1])
  }

  ghost function FVObj(def: ObjBody): set<Name>
    decreases def, 0, 0
  {
    FVBinds(def.locals) + FVBinds(def.fields) - NameSet(Names(def.locals)) - {Self, Super}
  }

  /** Free names of the comprehension `c` from its `k`-th specification on. */
  ghost function FVSpecs(c: Expr, k: nat): set<Name>
    requires c.Comp? && k <= |c.specs|
    decreases c, 0, |c.specs| - k
  {
    if k == |c.specs| then FV(c.value)
    else match c.specs[k]
      case Cond(cond) => FV(cond) + FVSpecs(c, k + 1)
      case For(x, over) => FV(over) + (FVSpecs(c, k + 1) - {Id(x)})
  }

  // ---------------------------------------------------------------- static errors

  const SelfNames: set<Name> := {Self, Super, Dollar}

  /** No name is unbound, `self`, `super` and `$` occur only inside objects, and no frame binds a
      name twice. */
  ghost predicate WF(e: Expr, dom: set<Name>)
    decreases e, 1, 0
  {
    match e
    case Lit(_) => true
    case Ref(n) => n in dom
    case SuperField(_) => Super in dom
    case Node(_, kids) => forall i :: 0 <= i < |kids| ==> WF(kids[i], dom)
    case Arr(items) => forall i :: 0 <= i < |items| ==> WF(items[i], dom)
    case Local(binds, body) =>
      && Distinct(Names(binds))
      && WFBinds(binds, dom + NameSet(Names(binds)))
      && WF(body, dom + NameSet(Names(binds)))
    case Fn(params, body) =>
      && Distinct(ParamNames(params))
      && (forall i :: 0 <= i < |params| ==> WFParam(params[i], dom + NameSet(ParamNames(params))))
      && WF(body, dom + NameSet(ParamNames(params)))
    case Obj(def) => WFObj(def, dom)
    case Extend(base, def) => WF(base, dom) && WFObj(def, dom)
    case Comp(_, _) => WFSpecs(e, 0, dom)
  }

  ghost predicate WFBinds(bs: seq<Bind>, dom: set<Name>)
    decreases bs, 0, 0
  {
    forall i :: 0 <= i < |bs| ==> WF(bs[i].value, dom)
  }

  ghost predicate WFParam(p: Param, dom: set<Name>)
    decreases p, 0, 0
  {
    p.default.Some? ==> WF(p.default.value, dom)
  }

  ghost predicate WFObj(def: ObjBody, dom: set<Name>)
    decreases def, 0, 0
  {
    && Distinct(Names(def.locals))
    && WFBinds(def.locals, dom + SelfNames + NameSet(Names(def.locals)))
    && WFBinds(def.fields, dom + SelfNames + NameSet(Names(def.locals)))
  }

  ghost predicate WFSpecs(c: Expr, k: nat, dom: set<Name>)
    requires c.Comp? && k <= |c.specs|
    decreases c, 0, |c.specs| - k
  {
    if k == |c.specs| then WF(c.value, dom)
    else match c.specs[k]
      case Cond(cond) => WF(cond, dom) && WFSpecs(c, k + 1, dom)
      case For(x, over) => WF(over, dom) && WFSpecs(c, k + 1, dom + {Id(x)})
  }

  // ---------------------------------------------------------------- scopes and views

  /** Which `LocalId` each name in scope refers to, and how many ids are in use. */
  datatype Scope = Scope(ids: map<Name, nat>, next: nat)

  ghost function Bind1(sc: Scope, n: Name): Scope {
    Scope(sc.ids[n := sc.next], sc.next + 1)
  }

  ghost function BindAll(sc: Scope, ns: seq<Name>): (r: Scope)
    ensures r.next == sc.next + |ns|
  {
    if ns == [] then sc else Bind1(BindAll(sc, ns[..|ns| - 1]), ns[|ns| - 1])
  }

  /** Scope of an object's members: the object itself takes the first id of the frame, and is also
      what `$` means when no object encloses it. */
  ghost function SelfScope(sc: Scope): Scope {
    Scope(sc.ids[Self := sc.next][Super := sc.next][Dollar := if Dollar in sc.ids then sc.ids[Dollar] else sc.next],
          sc.next + 1)
  }

  ghost function IdsOf(ns: set<Name>, sc: Scope): set<nat> {
    set n | n in ns && n in sc.ids :: sc.ids[n]
  }

  ghost function FreeIds(e: Expr, sc: Scope): set<nat> { IdsOf(FV(e), sc) }

  /** What a context can name: the ids of its capture pack, and the ids `first..first+n` of the
      frame it runs in. With `hole`, cell 0 of the frame is never filled; `sup` says that the
      context knows the object it is a part of. */
  datatype View = View(caps: seq<nat>, first: nat, n: nat, hole: bool, sup: bool)

  ghost function IdOf(v: View, s: Slot): Option<nat> {
    match s
    case SLocal(i) => if i < v.n && !(v.hole && i == 0) then Some(v.first + i) else None
    case SCapture(i) => if i < |v.caps| then Some(v.caps[i]) else None
  }

  ghost predicate ShapeOk(sh: Shape, v: View) {
    forall i :: 0 <= i < |sh.captures| ==> IdOf(v, sh.captures[i]).Some?
  }

  ghost function Ids(sh: Shape, v: View): (r: seq<nat>)
    requires ShapeOk(sh, v)
    ensures |r| == |sh.captures|
    ensures forall i :: 0 <= i < |r| ==> r[i] == IdOf(v, sh.captures[i]).value
  {
    seq(|sh.captures|, i requires 0 <= i < |sh.captures| => IdOf(v, sh.captures[i]).value)
  }

  /** A closure without locals of its own takes nothing from the frame it is created in. */
  ghost predicate CapsOnly(sh: Shape) {
    sh.n == 0 && forall i :: 0 <= i < |sh.captures| ==> sh.captures[i].SCapture?
  }

  ghost function UseView(v: View, sh: Shape): View
    requires ShapeOk(sh, v)
  {
    v.(caps := Ids(sh, v))
  }

  ghost function EnterView(v: View, sh: Shape, first: nat): View
    requires ShapeOk(sh, v)
  {
    View(Ids(sh, v), first, sh.n, false, v.sup)
  }

  ghost function ObjView(v: View, def: LObjBody, first: nat): View
    requires ShapeOk(def.shape, v)
  {
    View(Ids(def.shape, v), first, def.shape.n, !def.late, def.late)
  }

  /** A frame's closure captures only what its contents mention. */
  ghost predicate FrameOk(sh: Shape, v: View, free: set<nat>) {
    ShapeOk(sh, v) && forall i :: 0 <= i < |sh.captures| ==> IdOf(v, sh.captures[i]).value in free
  }

  // ---------------------------------------------------------------- resolution

  /** `le` is `e` with every name replaced by a slot that denotes the name's innermost binder. */
  ghost predicate Res(e: Expr, le: LExpr, sc: Scope, v: View)
    decreases e, 1, 0
  {
    match e
    case Lit(t) => le == LLit(t)
    case Ref(n) =>
      if n == Super then le == LSuper && v.sup else le.LSlot? && n in sc.ids && IdOf(v, le.s) == Some(sc.ids[n])
    case SuperField(f) => le == LSuperField(f) && v.sup
    case Node(op, kids) =>
      && le.LNode? && le.op == op && |le.kids| == |kids|
      && forall i :: 0 <= i < |kids| ==> Res(kids[i], le.kids[i], sc, v)
    case Arr(items) =>
      if AllTrivial(items) then le == LArrConst(Trivials(items))
      else
        && le.LArr? && |le.items| == |items| && CapsOnly(le.shape) && ShapeOk(le.shape, v)
        && forall i :: 0 <= i < |items| ==> Res(items[i], le.items[i], sc, UseView(v, le.shape))
    case Local(binds, body) =>
      if binds == [] then Res(body, le, sc, v)
      else
        && Distinct(Names(binds)) && le.LLocal? && le.shape.n == |binds| && FrameOk(le.shape, v, FreeIds(e, sc))
        && ResBinds(binds, le.binds, BindAll(sc, Names(binds)), EnterView(v, le.shape, sc.next), 0)
        && Res(body, le.body, BindAll(sc, Names(binds)), EnterView(v, le.shape, sc.next))
    case Fn(params, body) =>
      var sc' := BindAll(sc, ParamNames(params));
      Distinct(ParamNames(params)) &&
      if le.LIdentity? then
        |params| == 1 && params[0].default.None?
        && Res(body, LSlot(SLocal(0)), sc', View([], sc.next, 1, false, false))
      else
        && le.LFn? && le.shape.n == |params| && FrameOk(le.shape, v, FreeIds(e, sc))
        && |le.params| == |params|
        && (forall i :: 0 <= i < |params| ==>
              ResParam(params[i], le.params[i], sc', EnterView(v, le.shape, sc.next), i))
        && Res(body, le.body, sc', EnterView(v, le.shape, sc.next))
    case Obj(def) => le.LObj? && ResObj(def, le.def, sc, v)
    case Extend(base, def) => le.LExtend? && Res(base, le.base, sc, v) && ResObj(def, le.def, sc, v)
    case Comp(_, specs) =>
      le.LComp? && |le.specs| == |specs| && ResSpecs(e, le, 0, sc, v, v, {})
  }

  /** Resolution inside a closure without locals of its own. */
  ghost predicate ResUse(e: Expr, le: LExpr, sh: Shape, sc: Scope, v: View)
    decreases e, 2, 0
  {
    CapsOnly(sh) && ShapeOk(sh, v) && Res(e, le, sc, UseView(v, sh))
  }

  ghost predicate ResBinds(bs: seq<Bind>, lbs: seq<LBind>, sc: Scope, v: View, off: nat)
    decreases bs, 0, 0
  {
    && |lbs| == |bs|
    && forall i :: 0 <= i < |bs| ==>
         lbs[i].slot == off + i && ResUse(bs[i].value, lbs[i].value, lbs[i].shape, sc, v)
  }

  ghost predicate ResParam(p: Param, lp: LParam, sc: Scope, v: View, slot: nat)
    decreases p, 0, 0
  {
    && lp.slot == slot
    && lp.default.Some? == p.default.Some?
    && (p.default.Some? ==>
          && lp.default.value.slot == slot
          && ResUse(p.default.value, lp.default.value.value, lp.default.value.shape, sc, v))
  }

  ghost predicate ResFields(fs: seq<Bind>, lfs: seq<LField>, sc: Scope, v: View)
    decreases fs, 0, 0
  {
    && |lfs| == |fs|
    && forall i :: 0 <= i < |fs| ==>
         lfs[i].name == fs[i].name && ResUse(fs[i].value, lfs[i].value, lfs[i].shape, sc, v)
  }

  ghost function BodyScope(def: ObjBody, sc: Scope): Scope {
    BindAll(SelfScope(sc), Names(def.locals))
  }

  /** Locals and fields of an object, in the view `v` of the object's own frame. */
  ghost predicate ResBody(def: ObjBody, ldef: LObjBody, sc: Scope, v: View)
    decreases def, 0, 0
  {
    && ResBinds(def.locals, ldef.locals, BodyScope(def, sc), v, 1)
    && ResFields(def.fields, ldef.fields, BodyScope(def, sc), v)
  }

  ghost predicate ResObj(def: ObjBody, ldef: LObjBody, sc: Scope, v: View)
    decreases def, 1, 0
  {
    && Distinct(Names(def.locals)) && FrameOk(ldef.shape, v, IdsOf(FVObj(def), sc))
    && ldef.shape.n == 1 + |def.locals|
    && ResBody(def, ldef, sc, ObjView(v, ldef, sc.next))
  }

  /** The comprehension from its `k`-th specification on. `v0` is the view outside it and `bound`
      holds the iteration variables introduced so far. */
  ghost predicate ResSpecs(c: Expr, lc: LExpr, k: nat, sc: Scope, v: View, v0: View, bound: set<Name>)
    requires c.Comp? && lc.LComp? && |lc.specs| == |c.specs| && k <= |c.specs|
    decreases c, 0, |c.specs| - k
  {
    if k == |c.specs| then ResUse(c.value, lc.value, lc.vshape, sc, v)
    else match c.specs[k]
      case Cond(cond) =>
        && lc.specs[k].LCond? && Res(cond, lc.specs[k].cond, sc, v)
        && ResSpecs(c, lc, k + 1, sc, v, v0, bound)
      case For(x, over) =>
        var ls := lc.specs[k];
        && ls.LFor? && ls.slot == 0 && ls.shape.n == 1
        && FrameOk(ls.shape, v, IdsOf(FVSpecs(c, k), sc))
        && (ls.inv ==> FV(over) !! bound)
        && Res(over, ls.over, sc, if ls.inv then v0 else v)
        && ResSpecs(c, lc, k + 1, Bind1(sc, Id(x)), EnterView(v, ls.shape, sc.next), v0, bound + {Id(x)})
  }
}
