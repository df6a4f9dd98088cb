/** When packed values and contexts stand for by-name values and environments. The relation follows
    packed values, which are finite; the cyclic part, the frames, is covered by a typing that says
    which by-name thunk each frame cell stands for. */
module Correspondence {
  import opened Options
  import opened Syntax
  import opened Resolution
  import opened ResolutionLaws
  import opened ByName
  import opened Packed

  /** What the cells of a frame stand for. The frame of an object whose members never mention the
      object is built once and serves every object that it later becomes a layer of. */
  datatype FrameTy = Plain(ts: seq<Thunk>) | Shared(env: Env, def: ObjBody)

  type Typing = seq<FrameTy>

  ghost predicate TyHas(f: FrameTy, j: nat, t: Thunk) {
    match f
    case Plain(ts) => j < |ts| && ts[j] == t
    case Shared(env, def) =>
      && 1 <= j <= |def.locals|
      && t.Susp? && t.env.InObj? && t.env.def == def && t.env.up == env && t.e == def.locals[j - 1].value
  }

  /** `w[id]` is the thunk the binder numbered `id` is bound to. */
  ghost predicate Match(sc: Scope, w: seq<Thunk>, env: Env) {
    && |w| == sc.next
    && (Dollar in sc.ids <==> Lookup(env, Dollar).Some?)
    && forall n :: n in sc.ids && n != Super ==> sc.ids[n] < |w| && Lookup(env, n) == Some(w[sc.ids[n]])
  }

  // ---------------------------------------------------------------- shortcuts

  /** The slot of a bare comprehension element may be read outside the element's closure. */
  ghost predicate ShortcutOk(sh: Shape, s: Slot) {
    s.SCapture? && s.i < |sh.captures| ==> sh.captures[s.i] == s
  }

  /** Every comprehension inside `e` whose element is a bare slot passes `ShortcutOk`. */
  ghost predicate Safe(e: LExpr)
    decreases e, 1
  {
    match e
    case LNode(_, kids) => forall i :: 0 <= i < |kids| ==> Safe(kids[i])
    case LArr(_, items) => forall i :: 0 <= i < |items| ==> Safe(items[i])
    case LLocal(_, binds, body) => (forall i :: 0 <= i < |binds| ==> SafeBind(binds[i])) && Safe(body)
    case LFn(params, _, body) =>
      (forall i :: 0 <= i < |params| && params[i].default.Some? ==> SafeBind(params[i].default.value)) && Safe(body)
    case LObj(def) => SafeObj(def)
    case LExtend(base, def) => Safe(base) && SafeObj(def)
    case LComp(vshape, value, specs) =>
      && (value.LSlot? ==> ShortcutOk(vshape, value.s)) && Safe(value)
      && forall i :: 0 <= i < |specs| ==> Safe(if specs[i].LFor? then specs[i].over else specs[i].cond)
    case _ => true
  }

  ghost predicate SafeBind(b: LBind)
    decreases b, 0
  {
    Safe(b.value)
  }

  ghost predicate SafeObj(def: LObjBody)
    decreases def, 0
  {
    && (forall i :: 0 <= i < |def.locals| ==> SafeBind(def.locals[i]))
    && (forall i :: 0 <= i < |def.fields| ==> Safe(def.fields[i].value))
  }

  // ---------------------------------------------------------------- the relation

  /** The static side of a context: scope, what its ids are bound to, and what its slots denote. */
  datatype Link = Link(sc: Scope, w: seq<Thunk>, v: View)

  ghost predicate RelT(W: Typing, lt: LThunk, t: Thunk)
    decreases lt, 1
  {
    match lt
    case LWhole(lo) => t.Whole? && RelO(W, lo, t.obj)
    case LSusp(ctx, le) =>
      t.Susp? && Safe(le) && exists L: Link :: Res(t.e, le, L.sc, L.v) && CtxRel(W, L, ctx, t.env)
  }

  ghost predicate CapsRel(W: Typing, caps: seq<LThunk>, ids: seq<nat>, w: seq<Thunk>)
    decreases caps, 0
  {
    && |ids| <= |caps|
    && forall i :: 0 <= i < |ids| ==> ids[i] < |w| && RelT(W, caps[i], w[ids[i]])
  }

  ghost predicate CellsRel(W: Typing, a: nat, v: View, w: seq<Thunk>) {
    forall j: nat :: IdOf(v, SLocal(j)).Some? ==> CellIs(W, a, j, v.first + j, w)
  }

  ghost predicate CellIs(W: Typing, a: nat, j: nat, id: nat, w: seq<Thunk>) {
    id < |w| && a < |W| && TyHas(W[a], j, w[id])
  }

  ghost predicate SupRel(W: Typing, sup: Option<SupThis>, env: Env)
    decreases sup, 0
  {
    && sup.Some? && Enclosing(env).Some?
    && sup.value.level == Enclosing(env).value.level
    && RelO(W, sup.value.obj, Enclosing(env).value.obj)
  }

  ghost predicate CtxRel(W: Typing, L: Link, ctx: Ctx, env: Env)
    decreases ctx, 1
  {
    && Match(L.sc, L.w, env)
    && CapsRel(W, ctx.caps, L.v.caps, L.w)
    && CellsRel(W, ctx.frame, L.v, L.w)
    && (L.v.sup ==> SupRel(W, ctx.sup, env))
  }

  ghost predicate RelO(W: Typing, lo: LObjVal, o: ObjVal)
    decreases lo, 1
  {
    && |lo.layers| == |o.layers|
    && forall i :: 0 <= i < |o.layers| ==> RelL(W, lo.layers[i], o.layers[i])
  }

  ghost predicate RelL(W: Typing, ll: LLayer, l: Layer)
    decreases ll, 1
  {
    && SafeObj(ll.def)
    && ll.def.late == ll.Late?
    && ll.def.shape.n == 1 + |l.def.locals| && Distinct(Names(l.def.locals))
    && (ll.Early? ==> ll.ctx.frame < |W| && W[ll.ctx.frame] == Shared(l.env, l.def))
    && (ll.Late? ==> PinRel(W, ll.pin, l.pin))
    && exists L: Link ::
         && Match(L.sc, L.w, l.env)
         && L.v == View(L.v.caps, L.sc.next, ll.def.shape.n, ll.Early?, ll.Late?)
         && ResBody(l.def, ll.def, L.sc, L.v)
         && CapsRel(W, if ll.Late? then ll.caps else ll.ctx.caps, L.v.caps, L.w)
  }

  ghost predicate PinRel(W: Typing, lp: Option<SupThis>, p: Option<SuperOf>)
    decreases lp, 0
  {
    lp.Some? == p.Some? && (lp.Some? ==> lp.value.level == p.value.level && RelO(W, lp.value.obj, p.value.obj))
  }

  /** A function value: `L.v` is the view of its body's frame. */
  ghost predicate FnRel(W: Typing, L: Link, caps: seq<LThunk>, sup: Option<SupThis>, fn: LExpr, params: seq<Param>,
                        body: Expr, env: Env)
  {
    && fn.LFn? && Safe(fn) && Distinct(ParamNames(params))
    && Match(L.sc, L.w, env) && CapsRel(W, caps, L.v.caps, L.w) && (L.v.sup ==> SupRel(W, sup, env))
    && L.v.first == L.sc.next && L.v.n == |params| && !L.v.hole
    && fn.shape.n == |params| && |fn.params| == |params|
    && (forall i :: 0 <= i < |params| ==>
          ResParam(params[i], fn.params[i], BindAll(L.sc, ParamNames(params)), L.v, i))
    && Res(body, fn.body, BindAll(L.sc, ParamNames(params)), L.v)
  }

  /** The identity function, recognised by its body being its own parameter's cell. */
  ghost predicate IdRel(L: Link, params: seq<Param>, body: Expr, env: Env) {
    && |params| == 1 && params[0].default.None? && Match(L.sc, L.w, env)
    && Res(body, LSlot(SLocal(0)), BindAll(L.sc, ParamNames(params)), View([], L.sc.next, 1, false, false))
  }

  ghost predicate RelTs(W: Typing, lts: seq<LThunk>, ts: seq<Thunk>) {
    |lts| == |ts| && forall i :: 0 <= i < |ts| ==> RelT(W, lts[i], ts[i])
  }

  ghost predicate RelV(W: Typing, lv: LVal, v: Val) {
    match lv
    case LTriv(t) => v == VTriv(t)
    case LClosure(caps, sup, fn) =>
      v.VClosure? && exists L: Link :: FnRel(W, L, caps, sup, fn, v.params, v.body, v.env)
    case LId => v.VClosure? && exists L: Link :: IdRel(L, v.params, v.body, v.env)
    case LArrV(items) => v.VArr? && RelTs(W, items, v.items)
    case LConsts(cs) =>
      v.VArr? && |v.items| == |cs| && forall i :: 0 <= i < |cs| ==> v.items[i].Susp? && v.items[i].e == Lit(cs[i])
    case LObjV(lo) => v.VObj? && RelO(W, lo, v.obj)
  }

  /** Same outcome, except that the packed machine may stop early on a source it evaluated ahead of
      its loop. It never panics. */
  ghost predicate RelR(W: Typing, out: LOutcome<LVal>, r: Outcome<Val>) {
    match out
    case LOk(lv) => r.Ok? && RelV(W, lv, r.v)
    case LFails => r.Fails?
    case LOutOfFuel => r.OutOfFuel?
    case Hoisted => true
    case Panic => false
  }

  ghost predicate CellOk(h: Heap, W: Typing, a: nat, j: nat, t: Thunk)
    requires a < |h|
  {
    j < |h[a]| && h[a][j].Some? && RelT(W, h[a][j].value, t)
  }

  /** Every cell that stands for something is filled, with a thunk that stands for it. */
  ghost predicate HeapOk(h: Heap, W: Typing) {
    && |h| == |W|
    && forall a, j: nat, t :: 0 <= a < |W| && TyHas(W[a], j, t) ==> CellOk(h, W, a, j, t)
  }

  // ---------------------------------------------------------------- typings only grow

  lemma {:induction false} GrowT(W: Typing, W': Typing, lt: LThunk, t: Thunk)
    requires W <= W' && RelT(W, lt, t)
    ensures RelT(W', lt, t)
    decreases lt, 1
  {
    match lt
    case LWhole(lo) => GrowO(W, W', lo, t.obj);
    case LSusp(ctx, le) =>
      var L: Link :| Res(t.e, le, L.sc, L.v) && CtxRel(W, L, ctx, t.env);
      GrowCtx(W, W', L, ctx, t.env);
  }

  lemma {:induction false} GrowCaps(W: Typing, W': Typing, caps: seq<LThunk>, ids: seq<nat>, w: seq<Thunk>)
    requires W <= W' && CapsRel(W, caps, ids, w)
    ensures CapsRel(W', caps, ids, w)
    decreases caps, 0
  {
    forall i | 0 <= i < |ids| ensures RelT(W', caps[i], w[ids[i]]) {
      GrowT(W, W', caps[i], w[ids[i]]);
    }
  }

  lemma {:induction false} GrowSup(W: Typing, W': Typing, sup: Option<SupThis>, env: Env)
    requires W <= W' && SupRel(W, sup, env)
    ensures SupRel(W', sup, env)
    decreases sup, 0
  {
    GrowO(W, W', sup.value.obj, Enclosing(env).value.obj);
  }

  lemma {:induction false} GrowCtx(W: Typing, W': Typing, L: Link, ctx: Ctx, env: Env)
    requires W <= W' && CtxRel(W, L, ctx, env)
    ensures CtxRel(W', L, ctx, env)
    decreases ctx, 1
  {
    GrowCaps(W, W', ctx.caps, L.v.caps, L.w);
    if L.v.sup { GrowSup(W, W', ctx.sup, env); }
  }

  lemma {:induction false} GrowO(W: Typing, W': Typing, lo: LObjVal, o: ObjVal)
    requires W <= W' && RelO(W, lo, o)
    ensures RelO(W', lo, o)
    decreases lo, 1
  {
    forall i | 0 <= i < |o.layers| ensures RelL(W', lo.layers[i], o.layers[i]) {
      GrowL(W, W', lo.layers[i], o.layers[i]);
    }
  }

  lemma {:induction false} GrowL(W: Typing, W': Typing, ll: LLayer, l: Layer)
    requires W <= W' && RelL(W, ll, l)
    ensures RelL(W', ll, l)
    decreases ll, 1
  {
    var L: Link :|
      && Match(L.sc, L.w, l.env)
      && L.v == View(L.v.caps, L.sc.next, ll.def.shape.n, ll.Early?, ll.Late?)
      && ResBody(l.def, ll.def, L.sc, L.v)
      && CapsRel(W, if ll.Late? then ll.caps else ll.ctx.caps, L.v.caps, L.w);
    GrowCaps(W, W', if ll.Late? then ll.caps else ll.ctx.caps, L.v.caps, L.w);
    if ll.Late? && ll.pin.Some? { GrowO(W, W', ll.pin.value.obj, l.pin.value.obj); }
  }

  lemma GrowTs(W: Typing, W': Typing, lts: seq<LThunk>, ts: seq<Thunk>)
    requires W <= W' && RelTs(W, lts, ts)
    ensures RelTs(W', lts, ts)
  {
    forall i | 0 <= i < |ts| ensures RelT(W', lts[i], ts[i]) { GrowT(W, W', lts[i], ts[i]); }
  }

  lemma GrowV(W: Typing, W': Typing, lv: LVal, v: Val)
    requires W <= W' && RelV(W, lv, v)
    ensures RelV(W', lv, v)
  {
    match lv
    case LClosure(caps, sup, fn) =>
      var L: Link :| FnRel(W, L, caps, sup, fn, v.params, v.body, v.env);
      GrowCaps(W, W', caps, L.v.caps, L.w);
      if L.v.sup { GrowSup(W, W', sup, v.env); }
      assert FnRel(W', L, caps, sup, fn, v.params, v.body, v.env);
    case LArrV(items) => GrowTs(W, W', items, v.items);
    case LObjV(lo) => GrowO(W, W', lo, v.obj);
    case _ =>
  }
}
