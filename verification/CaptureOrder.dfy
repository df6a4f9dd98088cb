/** The order in which names are captured. Analysis walks an expression once, from left to right, and
    a closure captures a name from outside where the walk first meets it. */
module CaptureOrder {
  import opened Options
  import opened Syntax
  import opened Resolution
  import opened ResolutionLaws

  // ---------------------------------------------------------------- mentions in walking order

  ghost function Without(us: seq<Name>, bound: set<Name>): seq<Name> {
    if us == [] then []
    else
      var n := us[|us| - 1];
      Without(us[..|us| - 1], bound) + if n in bound then [] else [n]
  }

  /** Every mention of a free name, in walking order. `super` is never captured. */
  ghost function Order(e: Expr): seq<Name>
    decreases e, 1, 0
  {
    match e
    case Lit(_) => []
    case Ref(n) => if n == Super then [] else [n]
    case SuperField(_) => []
    case Node(_, kids) => Orders(kids)
    case Arr(items) => Orders(items)
    case Local(binds, body) => Without(OrderBinds(binds) + Order(body), NameSet(Names(binds)))
    case Fn(params, body) => Without(OrderParams(params) + Order(body), NameSet(ParamNames(params)))
    case Obj(def) => OrderObj(def)
    case Extend(base, def) => Order(base) + OrderObj(def)
    case Comp(_, _) => OrderSpecs(e, 0)
  }

  ghost function Orders(es: seq<Expr>): seq<Name>
    decreases es, 0, 0
  {
    if es == [] then [] else Orders(es[..|es| - 1]) + Order(es[|es| - 1])
  }

  ghost function OrderBinds(bs: seq<Bind>): seq<Name>
    decreases bs, 0, 0
  {
    if bs == [] then [] else OrderBinds(bs[..|bs| - 1]) + Order(bs[|bs| - 1].value)
  }

  ghost function OrderParam(p: Param): seq<Name>
    decreases p, 0, 0
  {
    if p.default.Some? then Order(p.default.value) else []
  }

  ghost function OrderParams(ps: seq<Param>): seq<Name>
    decreases ps, 0, 0
  {
    if ps == [] then [] else OrderParams(ps[..|ps| - 1]) + OrderParam(ps[|ps| - 1])
  }

  ghost function OrderObj(def: ObjBody): seq<Name>
    decreases def, 0, 0
  {
    Without(OrderBinds(def.locals) + OrderBinds(def.fields), NameSet(Names(def.locals)) + {Self, Super})
  }

  ghost function OrderSpecs(c: Expr, k: nat): seq<Name>
    requires c.Comp? && k <= |c.specs|
    decreases c, 0, |c.specs| - k
  {
    if k == |c.specs| then Order(c.value)
    else match c.specs[k]
      case Cond(cond) => Order(cond) + OrderSpecs(c, k + 1)
      case For(x, over) => Order(over) + Without(OrderSpecs(c, k + 1), {Id(x)})
  }

  lemma {:induction false} OrdersTrivial(es: seq<Expr>)
    requires AllTrivial(es)
    ensures Orders(es) == []
    decreases |es|
  {
    if es != [] { OrdersTrivial(es[..|es| - 1]); }
  }

  // ---------------------------------------------------------------- mentions of own locals

  /** Something in `e` mentions a local that `e` itself introduces. With `top`, no object is around
      `e`, so that the outermost object in `e` is what `$` means. */
  ghost predicate Own(e: Expr, top: bool)
    decreases e, 1, 0
  {
    match e
    case Lit(_) => false
    case Ref(_) => false
    case SuperField(_) => false
    case Node(_, kids) => OwnSeq(kids, top)
    case Arr(items) => OwnSeq(items, top)
    case Local(binds, body) =>
      OwnBinds(binds, top) || Own(body, top) || Meets(FVBinds(binds) + FV(body), NameSet(Names(binds)))
    case Fn(params, body) =>
      OwnParams(params, top) || Own(body, top) || Meets(FVParams(params) + FV(body), NameSet(ParamNames(params)))
    case Obj(def) => OwnObj(def, top)
    case Extend(base, def) => Own(base, top) || OwnObj(def, top)
    case Comp(_, _) => OwnSpecs(e, 0, top)
  }

  ghost predicate OwnSeq(es: seq<Expr>, top: bool)
    decreases es, 0, 0
  {
    es != [] && (OwnSeq(es[..|es| - 1], top) || Own(es[|es| - 1], top))
  }

  ghost predicate OwnBinds(bs: seq<Bind>, top: bool)
    decreases bs, 0, 0
  {
    bs != [] && (OwnBinds(bs[..|bs| - 1], top) || Own(bs[|bs| - 1].value, top))
  }

  ghost predicate OwnParam(p: Param, top: bool)
    decreases p, 0, 0
  {
    p.default.Some? && Own(p.default.value, top)
  }

  ghost predicate OwnParams(ps: seq<Param>, top: bool)
    decreases ps, 0, 0
  {
    ps != [] && (OwnParams(ps[..|ps| - 1], top) || OwnParam(ps[|ps| - 1], top))
  }

  /** What an object's frame binds. */
  ghost function ObjNames(def: ObjBody, top: bool): set<Name> {
    NameSet(Names(def.locals)) + {Self, Super} + if top then {Dollar} else {}
  }

  ghost predicate OwnObj(def: ObjBody, top: bool)
    decreases def, 0, 0
  {
    || OwnBinds(def.locals, false) || OwnBinds(def.fields, false)
    || Meets(FVBinds(def.locals) + FVBinds(def.fields), ObjNames(def, top))
  }

  ghost predicate OwnSpecs(c: Expr, k: nat, top: bool)
    requires c.Comp? && k <= |c.specs|
    decreases c, 0, |c.specs| - k
  {
    if k == |c.specs| then Own(c.value, top)
    else match c.specs[k]
      case Cond(cond) => Own(cond, top) || OwnSpecs(c, k + 1, top)
      case For(x, over) => Own(over, top) || OwnSpecs(c, k + 1, top) || Id(x) in FVSpecs(c, k + 1)
  }

  lemma {:induction false} OwnTrivial(es: seq<Expr>, top: bool)
    requires AllTrivial(es)
    ensures !OwnSeq(es, top)
    decreases |es|
  {
    if es != [] { OwnTrivial(es[..|es| - 1], top); }
  }

  // ---------------------------------------------------------------- captures in walking order

  /** Id of a name, if it was bound before the id `first`. */
  ghost function Low(sc: Scope, n: Name, first: nat): Option<nat> {
    if n in sc.ids && sc.ids[n] < first then Some(sc.ids[n]) else None
  }

  ghost function Take1(c: seq<nat>, id: Option<nat>): seq<nat> {
    if id.Some? && id.value !in c then c + [id.value] else c
  }

  /** The captures `c` of a closure whose own locals start at id `first`, after a walk over the
      mentions `us`. */
  ghost function Taken(c: seq<nat>, us: seq<Name>, sc: Scope, first: nat): seq<nat> {
    if us == [] then c else Take1(Taken(c, us[..|us| - 1], sc, first), Low(sc, us[|us| - 1], first))
  }

  lemma {:induction false} TakenCat(c: seq<nat>, a: seq<Name>, b: seq<Name>, sc: Scope, first: nat)
    ensures Taken(c, a + b, sc, first) == Taken(Taken(c, a, sc, first), b, sc, first)
    decreases |b|
  {
    if b == [] {
      assert a + b == a;
    } else {
      var b' := b[..|b| - 1];
      assert (a + b)[..|a + b| - 1] == a + b' && (a + b)[|a + b| - 1] == b[|b| - 1];
      TakenCat(c, a, b', sc, first);
    }
  }

  /** The scope `sc1` inside a frame, seen from below `next`: `sc` without the names in `bound`. */
  ghost predicate Hides(sc: Scope, sc1: Scope, bound: set<Name>, next: nat) {
    forall n :: Low(sc1, n, next) == if n in bound then None else Low(sc, n, next)
  }

  /** What a frame binds is never captured from outside it. */
  lemma {:induction false} TakenHidden(c: seq<nat>, us: seq<Name>, sc: Scope, sc1: Scope, bound: set<Name>, next: nat, first: nat)
    requires Hides(sc, sc1, bound, next) && first <= next
    ensures Taken(c, us, sc1, first) == Taken(c, Without(us, bound), sc, first)
    decreases |us|
  {
    if us != [] {
      var us', n := us[..|us| - 1], us[|us| - 1];
      TakenHidden(c, us', sc, sc1, bound, next, first);
      assert Low(sc1, n, next) == if n in bound then None else Low(sc, n, next);
      if n !in bound {
        assert (Without(us', bound) + [n])[..|Without(us', bound)|] == Without(us', bound);
      } else {
        assert Without(us, bound) == Without(us', bound);
      }
    }
  }

  lemma {:induction false} TakenHas(c: seq<nat>, us: seq<Name>, sc: Scope, first: nat)
    ensures c <= Taken(c, us, sc, first)
    ensures forall n :: n in us && Low(sc, n, first).Some? ==> Low(sc, n, first).value in Taken(c, us, sc, first)
    decreases |us|
  {
    if us != [] { TakenHas(c, us[..|us| - 1], sc, first); }
  }

  lemma {:induction false} TakenAll(c: seq<nat>, us: seq<Name>, sc: Scope, first: nat)
    requires forall n :: n in us && Low(sc, n, first).Some? ==> Low(sc, n, first).value in c
    ensures Taken(c, us, sc, first) == c
    decreases |us|
  {
    if us != [] { TakenAll(c, us[..|us| - 1], sc, first); }
  }

  /** A second walk over the same mentions captures nothing more. */
  lemma TakenTwice(c: seq<nat>, us: seq<Name>, sc: Scope, first: nat)
    ensures Taken(Taken(c, us, sc, first), us, sc, first) == Taken(c, us, sc, first)
  {
    TakenHas(c, us, sc, first);
    TakenAll(Taken(c, us, sc, first), us, sc, first);
  }

  lemma {:induction false} TakenDistinct(c: seq<nat>, us: seq<Name>, sc: Scope, first: nat)
    requires Distinct(c)
    ensures Distinct(Taken(c, us, sc, first))
    decreases |us|
  {
    if us != [] { TakenDistinct(c, us[..|us| - 1], sc, first); }
  }

  // ---------------------------------------------------------------- lowered code in capture order

  /** A closure captures the names `us` at their first mention, and nothing else. */
  ghost predicate InOrder(sh: Shape, v: View, us: seq<Name>, sc: Scope, first: nat) {
    ShapeOk(sh, v) && Ids(sh, v) == Taken([], us, sc, first)
  }

  /** View of an object's members, as if the object were late bound. */
  ghost function MemberView(v: View, def: LObjBody, first: nat): View
    requires ShapeOk(def.shape, v)
  {
    View(Ids(def.shape, v), first, def.shape.n, false, true)
  }

  /** Every closure in `le` captures in walking order. */
  ghost predicate Ordered(e: Expr, le: LExpr, sc: Scope, v: View)
    decreases e, 1, 0
  {
    match e
    case Node(_, kids) =>
      le.LNode? && |le.kids| == |kids| && forall i :: 0 <= i < |kids| ==> Ordered(kids[i], le.kids[i], sc, v)
    case Arr(items) =>
      AllTrivial(items) ||
      (&& le.LArr? && |le.items| == |items| && InOrder(le.shape, v, Orders(items), sc, v.first)
       && forall i :: 0 <= i < |items| ==> Ordered(items[i], le.items[i], sc, UseView(v, le.shape)))
    case Local(binds, body) =>
      if binds == [] then Ordered(body, le, sc, v)
      else
        && le.LLocal? && InOrder(le.shape, v, Order(e), sc, sc.next)
        && OrderedBinds(binds, le.binds, BindAll(sc, Names(binds)), EnterView(v, le.shape, sc.next))
        && Ordered(body, le.body, BindAll(sc, Names(binds)), EnterView(v, le.shape, sc.next))
    case Fn(params, body) =>
      le.LIdentity? ||
      (&& le.LFn? && |le.params| == |params| && InOrder(le.shape, v, Order(e), sc, sc.next)
       && (forall i :: 0 <= i < |params| ==>
             OrderedParam(params[i], le.params[i], BindAll(sc, ParamNames(params)), EnterView(v, le.shape, sc.next)))
       && Ordered(body, le.body, BindAll(sc, ParamNames(params)), EnterView(v, le.shape, sc.next)))
    case Obj(def) => le.LObj? && OrderedObj(def, le.def, sc, v)
    case Extend(base, def) => le.LExtend? && Ordered(base, le.base, sc, v) && OrderedObj(def, le.def, sc, v)
    case Comp(_, specs) => le.LComp? && |le.specs| == |specs| && OrderedSpecs(e, le, 0, sc, v, v)
    case _ => true
  }

  ghost predicate OrderedUse(e: Expr, le: LExpr, sh: Shape, sc: Scope, v: View)
    decreases e, 2, 0
  {
    InOrder(sh, v, Order(e), sc, v.first) && Ordered(e, le, sc, UseView(v, sh))
  }

  ghost predicate OrderedBinds(bs: seq<Bind>, lbs: seq<LBind>, sc: Scope, v: View)
    decreases bs, 0, 0
  {
    |lbs| == |bs| && forall i :: 0 <= i < |bs| ==> OrderedUse(bs[i].value, lbs[i].value, lbs[i].shape, sc, v)
  }

  ghost predicate OrderedParam(p: Param, lp: LParam, sc: Scope, v: View)
    decreases p, 0, 0
  {
    p.default.Some? ==>
      lp.default.Some? && OrderedUse(p.default.value, lp.default.value.value, lp.default.value.shape, sc, v)
  }

  ghost predicate OrderedFields(fs: seq<Bind>, lfs: seq<LField>, sc: Scope, v: View)
    decreases fs, 0, 0
  {
    |lfs| == |fs| && forall i :: 0 <= i < |fs| ==> OrderedUse(fs[i].value, lfs[i].value, lfs[i].shape, sc, v)
  }

  ghost predicate OrderedObj(def: ObjBody, ldef: LObjBody, sc: Scope, v: View)
    decreases def, 0, 0
  {
    && InOrder(ldef.shape, v, OrderObj(def), sc, sc.next)
    && OrderedBinds(def.locals, ldef.locals, BodyScope(def, sc), MemberView(v, ldef, sc.next))
    && OrderedFields(def.fields, ldef.fields, BodyScope(def, sc), MemberView(v, ldef, sc.next))
  }

  /** A source that mentions nothing from around it is evaluated ahead of the loop exactly if it
      mentions no local of its own either. */
  ghost predicate ClosedHoist(over: Expr, inv: bool, sc: Scope) {
    FV(over) == {} ==> (inv <==> !Own(over, Dollar !in sc.ids))
  }

  ghost predicate OrderedSpecs(c: Expr, lc: LExpr, k: nat, sc: Scope, v: View, v0: View)
    requires c.Comp? && lc.LComp? && |lc.specs| == |c.specs| && k <= |c.specs|
    decreases c, 0, |c.specs| - k
  {
    if k == |c.specs| then OrderedUse(c.value, lc.value, lc.vshape, sc, v)
    else match c.specs[k]
      case Cond(cond) =>
        lc.specs[k].LCond? && Ordered(cond, lc.specs[k].cond, sc, v) && OrderedSpecs(c, lc, k + 1, sc, v, v0)
      case For(x, over) =>
        var ls := lc.specs[k];
        && ls.LFor? && ClosedHoist(over, ls.inv, sc) && InOrder(ls.shape, v, Without(OrderSpecs(c, k + 1), {Id(x)}), sc, sc.next)
        && Ordered(over, ls.over, sc, if ls.inv then v0 else v)
        && OrderedSpecs(c, lc, k + 1, Bind1(sc, Id(x)), EnterView(v, ls.shape, sc.next), v0)
  }

  // ---------------------------------------------------------------- growing capture packs

  lemma InOrderGrows(sh: Shape, v0: View, v1: View, us: seq<Name>, sc: Scope, first: nat)
    requires Grows(v0, v1) && InOrder(sh, v0, us, sc, first)
    ensures InOrder(sh, v1, us, sc, first) && Ids(sh, v1) == Ids(sh, v0)
    ensures UseView(v1, sh) == UseView(v0, sh)
    ensures forall next :: EnterView(v1, sh, next) == EnterView(v0, sh, next)
  {
    IdsGrow(sh, v0, v1);
  }

  lemma OrderedUseGrows(e: Expr, le: LExpr, sh: Shape, sc: Scope, v0: View, v1: View)
    requires Grows(v0, v1) && OrderedUse(e, le, sh, sc, v0)
    ensures OrderedUse(e, le, sh, sc, v1)
  {
    InOrderGrows(sh, v0, v1, Order(e), sc, v0.first);
  }

  lemma {:induction false} OrderedGrows(e: Expr, le: LExpr, sc: Scope, v0: View, v1: View)
    requires Grows(v0, v1) && Ordered(e, le, sc, v0)
    ensures Ordered(e, le, sc, v1)
    decreases e, 1, 0
  {
    match e
    case Node(_, kids) =>
      forall i | 0 <= i < |kids| ensures Ordered(kids[i], le.kids[i], sc, v1) { OrderedGrows(kids[i], le.kids[i], sc, v0, v1); }
    case Arr(items) =>
      if !AllTrivial(items) { InOrderGrows(le.shape, v0, v1, Orders(items), sc, v0.first); }
    case Local(binds, body) =>
      if binds == [] { OrderedGrows(body, le, sc, v0, v1); } else { InOrderGrows(le.shape, v0, v1, Order(e), sc, sc.next); }
    case Fn(_, _) =>
      if !le.LIdentity? { InOrderGrows(le.shape, v0, v1, Order(e), sc, sc.next); }
    case Obj(def) => InOrderGrows(le.def.shape, v0, v1, OrderObj(def), sc, sc.next);
    case Extend(base, def) =>
      OrderedGrows(base, le.base, sc, v0, v1);
      InOrderGrows(le.def.shape, v0, v1, OrderObj(def), sc, sc.next);
    case Comp(_, _) => OrderedSpecsGrows(e, le, 0, sc, v0, v1, v0, v1);
    case _ =>
  }

  lemma {:induction false} OrderedSpecsGrows(c: Expr, lc: LExpr, k: nat, sc: Scope, v0: View, v1: View, w0: View, w1: View)
    requires c.Comp? && lc.LComp? && |lc.specs| == |c.specs| && k <= |c.specs|
    requires Grows(v0, v1) && Grows(w0, w1) && OrderedSpecs(c, lc, k, sc, v0, w0)
    ensures OrderedSpecs(c, lc, k, sc, v1, w1)
    decreases c, 0, |c.specs| - k
  {
    if k == |c.specs| {
      InOrderGrows(lc.vshape, v0, v1, Order(c.value), sc, v0.first);
    } else {
      match c.specs[k]
      case Cond(cond) =>
        OrderedGrows(cond, lc.specs[k].cond, sc, v0, v1);
        OrderedSpecsGrows(c, lc, k + 1, sc, v0, v1, w0, w1);
      case For(x, over) =>
        var ls := lc.specs[k];
        InOrderGrows(ls.shape, v0, v1, Without(OrderSpecs(c, k + 1), {Id(x)}), sc, sc.next);
        if ls.inv { OrderedGrows(over, ls.over, sc, w0, w1); } else { OrderedGrows(over, ls.over, sc, v0, v1); }
        var v' := EnterView(v0, ls.shape, sc.next);
        OrderedSpecsGrows(c, lc, k + 1, Bind1(sc, Id(x)), v', v', w0, w1);
    }
  }
}
