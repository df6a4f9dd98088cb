/** Which programs the bare element shortcut is sound for, told from the source alone. A bare element
    is read in the iteration's own context with the slot it has in the element's closure, so that is
    right when the element is the variable itself, or the first name that the frame captures. */
module SafeSources {
  import opened Options
  import opened Syntax
  import opened Resolution
  import opened ResolutionLaws
  import opened CaptureOrder
  import opened Correspondence

  /** The name an expression consists of, if it is just a name. */
  ghost function Bare(e: Expr): Option<Name> {
    match e
    case Ref(n) => if n == Super then None else Some(n)
    case Local(binds, body) => if binds == [] then Bare(body) else None
    case _ => None
  }

  /** Two names of one binder: with `own`, the innermost object is also the outermost one. */
  ghost predicate Same(a: Name, b: Name, own: bool) {
    a == b || (a in {Self, Super} && b in {Self, Super}) || (own && a in SelfNames && b in SelfNames)
  }

  /** An object that starts here is an outermost one. */
  ghost predicate Outermost(dom: set<Name>) { Dollar !in dom }

  /** The first of the mentions `us` that is bound outside. */
  ghost function FirstOf(us: seq<Name>, dom: set<Name>): Option<Name> {
    if us == [] then None
    else
      var r := FirstOf(us[..|us| - 1], dom);
      if r.Some? then r else if us[|us| - 1] in dom then Some(us[|us| - 1]) else None
  }

  /** No variable is introduced after the `k`-th specification. */
  ghost predicate LastFor(c: Expr, k: nat)
    requires c.Comp?
  {
    forall j :: k < j < |c.specs| ==> c.specs[j].Cond?
  }

  /** What follows the last variable mentions a bare element first, or the element is the variable. */
  ghost predicate FirstMentioned(c: Expr, k: nat, dom: set<Name>, own: bool)
    requires c.Comp? && k < |c.specs| && c.specs[k].For?
  {
    var x, e := Id(c.specs[k].x), Bare(c.value);
    var first := FirstOf(Without(OrderSpecs(c, k + 1), {x}), dom);
    e.Some? && e.value != x && first.Some? ==> Same(first.value, e.value, own)
  }

  /** `dom` holds the names in scope, and `own` says whether `$` is `self` there. */
  ghost predicate SafeSource(e: Expr, dom: set<Name>, own: bool)
    decreases e, 1, 0
  {
    match e
    case Node(_, kids) => forall i :: 0 <= i < |kids| ==> SafeSource(kids[i], dom, own)
    case Arr(items) => forall i :: 0 <= i < |items| ==> SafeSource(items[i], dom, own)
    case Local(binds, body) =>
      var dom' := dom + NameSet(Names(binds));
      SafeSources(binds, dom', own) && SafeSource(body, dom', own)
    case Fn(params, body) =>
      var dom' := dom + NameSet(ParamNames(params));
      (forall i :: 0 <= i < |params| ==> SafeParam(params[i], dom', own)) && SafeSource(body, dom', own)
    case Obj(def) => SafeObjSource(def, dom)
    case Extend(base, def) => SafeSource(base, dom, own) && SafeObjSource(def, dom)
    case Comp(_, _) => SafeSpecs(e, 0, dom, own)
    case _ => true
  }

  ghost predicate SafeSources(bs: seq<Bind>, dom: set<Name>, own: bool)
    decreases bs, 0, 0
  {
    forall i :: 0 <= i < |bs| ==> SafeSource(bs[i].value, dom, own)
  }

  ghost predicate SafeParam(p: Param, dom: set<Name>, own: bool)
    decreases p, 0, 0
  {
    p.default.Some? ==> SafeSource(p.default.value, dom, own)
  }

  ghost predicate SafeObjSource(def: ObjBody, dom: set<Name>)
    decreases def, 0, 0
  {
    var dom' := dom + SelfNames + NameSet(Names(def.locals));
    SafeSources(def.locals, dom', Outermost(dom)) && SafeSources(def.fields, dom', Outermost(dom))
  }

  ghost predicate SafeSpecs(c: Expr, k: nat, dom: set<Name>, own: bool)
    requires c.Comp? && k <= |c.specs|
    decreases c, 0, |c.specs| - k
  {
    if k == |c.specs| then SafeSource(c.value, dom, own)
    else match c.specs[k]
      case Cond(cond) => SafeSource(cond, dom, own) && SafeSpecs(c, k + 1, dom, own)
      case For(x, over) =>
        && SafeSource(over, dom, own) && SafeSpecs(c, k + 1, dom + {Id(x)}, own)
        && (LastFor(c, k) ==> FirstMentioned(c, k, dom, own))
  }

  /** The grammar: a comprehension starts with a `for`. */
  ghost predicate Grammatical(e: Expr)
    decreases e, 1
  {
    match e
    case Node(_, kids) => forall i :: 0 <= i < |kids| ==> Grammatical(kids[i])
    case Arr(items) => forall i :: 0 <= i < |items| ==> Grammatical(items[i])
    case Local(binds, body) => (forall i :: 0 <= i < |binds| ==> GrammaticalBind(binds[i])) && Grammatical(body)
    case Fn(params, body) =>
      (forall i :: 0 <= i < |params| && params[i].default.Some? ==> Grammatical(params[i].default.value)) && Grammatical(body)
    case Obj(def) => GrammaticalObj(def)
    case Extend(base, def) => Grammatical(base) && GrammaticalObj(def)
    case Comp(value, specs) =>
      && specs != [] && specs[0].For? && Grammatical(value)
      && forall i :: 0 <= i < |specs| ==> Grammatical(if specs[i].For? then specs[i].over else specs[i].cond)
    case _ => true
  }

  ghost predicate GrammaticalBind(b: Bind)
    decreases b, 0
  {
    Grammatical(b.value)
  }

  ghost predicate GrammaticalObj(def: ObjBody)
    decreases def, 0
  {
    && (forall i :: 0 <= i < |def.locals| ==> GrammaticalBind(def.locals[i]))
    && (forall i :: 0 <= i < |def.fields| ==> GrammaticalBind(def.fields[i]))
  }

  // ---------------------------------------------------------------- scopes give distinct names distinct ids

  ghost predicate ScopeOk(sc: Scope, own: bool) {
    && (forall n :: n in sc.ids ==> sc.ids[n] < sc.next)
    && (forall a, b :: a in sc.ids && b in sc.ids ==> (sc.ids[a] == sc.ids[b] <==> Same(a, b, own)))
  }

  lemma {:induction false} BindAllOk(sc: Scope, ns: seq<Name>, own: bool)
    requires ScopeOk(sc, own) && forall i :: 0 <= i < |ns| ==> ns[i].Id?
    ensures ScopeOk(BindAll(sc, ns), own) && BindAll(sc, ns).ids.Keys == sc.ids.Keys + NameSet(ns)
    decreases |ns|
  {
    if ns != [] {
      BindAllOk(sc, ns[..|ns| - 1], own);
      assert NameSet(ns) == NameSet(ns[..|ns| - 1]) + {ns[|ns| - 1]} by {
        assert ns == ns[..|ns| - 1] + [ns[|ns| - 1]];
      }
    }
  }

  lemma BodyOk(def: ObjBody, sc: Scope, own: bool)
    requires ScopeOk(sc, own)
    ensures ScopeOk(BodyScope(def, sc), Outermost(sc.ids.Keys))
    ensures BodyScope(def, sc).ids.Keys == sc.ids.Keys + SelfNames + NameSet(Names(def.locals))
  {
    assert ScopeOk(SelfScope(sc), Outermost(sc.ids.Keys));
    assert SelfScope(sc).ids.Keys == sc.ids.Keys + SelfNames;
    BindAllOk(SelfScope(sc), Names(def.locals), Outermost(sc.ids.Keys));
  }

  // ---------------------------------------------------------------- the frame of the last variable

  /** A frame's first capture is its first mention of a name bound outside. */
  lemma {:induction false} FirstTaken(us: seq<Name>, sc: Scope)
    requires forall n :: n in sc.ids ==> sc.ids[n] < sc.next
    ensures var c, f := Taken([], us, sc, sc.next), FirstOf(us, sc.ids.Keys);
            && (c == [] <==> f.None?)
            && (f.Some? ==> f.value in sc.ids && c[0] == sc.ids[f.value])
    decreases |us|
  {
    if us != [] { FirstTaken(us[..|us| - 1], sc); }
  }

  lemma {:induction false} BareRes(e: Expr, le: LExpr, sc: Scope, v: View)
    requires Res(e, le, sc, v)
    ensures le.LSlot? <==> Bare(e).Some?
    ensures le.LSlot? ==> Bare(e).value in sc.ids && IdOf(v, le.s) == Some(sc.ids[Bare(e).value])
    decreases e
  {
    if e.Local? && e.binds == [] { BareRes(e.body, le, sc, v); }
  }

  lemma BareOrder(e: Expr)
    requires Bare(e).Some?
    ensures Order(e) == [Bare(e).value]
  {
    if e.Local? {
      assert NameSet(Names(e.binds)) == {} && OrderBinds(e.binds) == [];
      assert OrderBinds(e.binds) + Order(e.body) == Order(e.body);
      var n := Bare(e.body).value;
      BareOrder(e.body);
      WithoutOne(n, {});
    }
  }

  lemma WithoutOne(n: Name, bound: set<Name>)
    ensures Without([n], bound) == if n in bound then [] else [n]
  {
    assert [n][..0] == [] && Without([], bound) == [];
  }

  lemma TakenOne(n: Name, sc: Scope, first: nat)
    ensures Taken([], [n], sc, first) == if Low(sc, n, first).Some? then [Low(sc, n, first).value] else []
  {
    assert [n][..0] == [];
  }

  /** `w` is `v` with the cell of an object that nothing mentions. */
  ghost predicate Sees(v: View, w: View) { w.caps == v.caps && w.first == v.first && w.n == v.n && !w.hole }

  lemma SeesIds(sh: Shape, v: View, w: View)
    requires Sees(v, w) && ShapeOk(sh, v)
    ensures ShapeOk(sh, w) && Ids(sh, w) == Ids(sh, v) && Sees(UseView(v, sh), UseView(w, sh))
    ensures forall first :: Sees(EnterView(v, sh, first), EnterView(w, sh, first))
  {
    forall i | 0 <= i < |sh.captures| ensures IdOf(w, sh.captures[i]) == IdOf(v, sh.captures[i]) {
      assert IdOf(v, sh.captures[i]).Some?;
    }
  }

  /** The closure of a bare element captures that name and nothing else. */
  lemma ElementSlot(e: Expr, le: LExpr, sh: Shape, sc: Scope, v: View, w: View, n: Name)
    requires Bare(e) == Some(n) && ResUse(e, le, sh, sc, v) && OrderedUse(e, le, sh, sc, w) && Sees(v, w)
    ensures le.LSlot? && n in sc.ids
    ensures sc.ids[n] >= w.first ==> le.s.SLocal?
    ensures sc.ids[n] < w.first ==>
              && le.s == SCapture(0) && |sh.captures| == 1 && sh.captures[0].SCapture?
              && sh.captures[0].i < |w.caps| && w.caps[sh.captures[0].i] == sc.ids[n]
  {
    SeesIds(sh, v, w);
    BareRes(e, le, sc, UseView(v, sh));
    BareOrder(e);
    TakenOne(n, sc, w.first);
    hide Res, Ordered, Taken, Order;
    assert Ids(sh, w) == if sc.ids[n] < w.first then [sc.ids[n]] else [];
  }

  ghost predicate ElementOk(lc: LExpr)
    requires lc.LComp?
  {
    lc.value.LSlot? ==> ShortcutOk(lc.vshape, lc.value.s)
  }

  lemma ElementIff(c: Expr, k: nat, lc: LExpr, sc: Scope, w: View, sh: Shape, v': View, own: bool)
    requires c.Comp? && k < |c.specs| && c.specs[k].For? && lc.LComp? && ScopeOk(sc, own)
    requires InOrder(sh, w, Without(OrderSpecs(c, k + 1), {Id(c.specs[k].x)}), sc, sc.next)
    requires var w', sc' := EnterView(w, sh, sc.next), Bind1(sc, Id(c.specs[k].x));
             Sees(v', w') && ResUse(c.value, lc.value, lc.vshape, sc', v') && OrderedUse(c.value, lc.value, lc.vshape, sc', w')
    ensures ElementOk(lc) <==> FirstMentioned(c, k, sc.ids.Keys, own)
  {
    var x, us := Id(c.specs[k].x), Without(OrderSpecs(c, k + 1), {Id(c.specs[k].x)});
    var w', sc' := EnterView(w, sh, sc.next), Bind1(sc, x);
    BareRes(c.value, lc.value, sc', UseView(v', lc.vshape));
    if Bare(c.value).Some? {
      var n := Bare(c.value).value;
      ElementSlot(c.value, lc.value, lc.vshape, sc', v', w', n);
      FirstTaken(us, sc);
      TakenDistinct([], us, sc, sc.next);
      hide Res, Ordered, ResUse, OrderedUse, Taken, OrderSpecs, FirstOf, Same, InOrder;
      FirstSlot(lc, us, sc, sc', w', x, n, own);
    }
  }

  lemma FirstSlot(lc: LExpr, us: seq<Name>, sc: Scope, sc': Scope, w': View, x: Name, n: Name, own: bool)
    requires ScopeOk(sc, own) && sc' == Bind1(sc, x) && w'.first == sc.next && Distinct(w'.caps) && n in sc'.ids
    requires var f := FirstOf(us, sc.ids.Keys);
             (w'.caps == [] <==> f.None?) && (f.Some? ==> f.value in sc.ids && w'.caps[0] == sc.ids[f.value])
    requires lc.LComp? && lc.value.LSlot?
    requires sc'.ids[n] >= w'.first ==> lc.value.s.SLocal?
    requires sc'.ids[n] < w'.first ==>
               && lc.value.s == SCapture(0) && |lc.vshape.captures| == 1 && lc.vshape.captures[0].SCapture?
               && lc.vshape.captures[0].i < |w'.caps| && w'.caps[lc.vshape.captures[0].i] == sc'.ids[n]
    ensures var f := FirstOf(us, sc.ids.Keys);
            ElementOk(lc) <==> (n != x && f.Some? ==> Same(f.value, n, own))
  {
    hide FirstOf, Same;
    if n != x {
      var j, f := lc.vshape.captures[0].i, FirstOf(us, sc.ids.Keys);
      assert sc'.ids[n] == sc.ids[n] < sc.next;
      assert f.Some? && w'.caps[0] == sc.ids[f.value];
      assert ElementOk(lc) <==> j == 0;
      assert j == 0 <==> w'.caps[j] == w'.caps[0];
    }
  }

  // ---------------------------------------------------------------- every comprehension

  ghost predicate HasFor(c: Expr, k: nat)
    requires c.Comp?
  {
    exists j :: k <= j < |c.specs| && c.specs[j].For?
  }

  ghost predicate SpecsSafe(lc: LExpr, k: nat)
    requires lc.LComp?
  {
    forall i :: k <= i < |lc.specs| ==> Safe(if lc.specs[i].LFor? then lc.specs[i].over else lc.specs[i].cond)
  }

  /** Conditions do not change the context the element is collected in. */
  lemma {:induction false} AtElement(c: Expr, lc: LExpr, k: nat, sc: Scope, v: View, v0: View, w: View, w0: View, bound: set<Name>)
    requires c.Comp? && lc.LComp? && |lc.specs| == |c.specs| && k <= |c.specs| && forall j :: k <= j < |c.specs| ==> c.specs[j].Cond?
    requires ResSpecs(c, lc, k, sc, v, v0, bound) && OrderedSpecs(c, lc, k, sc, w, w0)
    ensures ResUse(c.value, lc.value, lc.vshape, sc, v) && OrderedUse(c.value, lc.value, lc.vshape, sc, w)
    decreases |c.specs| - k
  {
    if k < |c.specs| { AtElement(c, lc, k + 1, sc, v, v0, w, w0, bound); }
  }

  /** The analyser's lowering, whose closures capture in walking order, is safe exactly when the
      source is. */
  lemma {:induction false} SafeIff(e: Expr, le: LExpr, sc: Scope, v: View, w: View, own: bool)
    requires Res(e, le, sc, v) && Ordered(e, le, sc, w) && Sees(v, w) && ScopeOk(sc, own) && Grammatical(e)
    ensures Safe(le) <==> SafeSource(e, sc.ids.Keys, own)
    decreases e, 1, 0
  {
    hide Res, Ordered, Sees, ScopeOk, Grammatical, Safe, SafeSource;
    match e
    case Node(_, _) => SafeNode(e, le, sc, v, w, own);
    case Arr(_) => SafeArr(e, le, sc, v, w, own);
    case Local(_, _) => SafeLocal(e, le, sc, v, w, own);
    case Fn(_, _) => SafeFn(e, le, sc, v, w, own);
    case Obj(_) => SafeObject(e, le, sc, v, w, own);
    case Extend(_, _) => SafeExtend(e, le, sc, v, w, own);
    case Comp(_, _) => SafeComp(e, le, sc, v, w, own);
    case _ => SafeLeaf(e, le, sc, v, own);
  }

  lemma SafeLeaf(e: Expr, le: LExpr, sc: Scope, v: View, own: bool)
    requires (e.Lit? || e.Ref? || e.SuperField?) && Res(e, le, sc, v)
    ensures Safe(le) && SafeSource(e, sc.ids.Keys, own)
  {}

  lemma {:induction false} SafeNode(e: Expr, le: LExpr, sc: Scope, v: View, w: View, own: bool)
    requires e.Node? && Res(e, le, sc, v) && Ordered(e, le, sc, w) && Sees(v, w) && ScopeOk(sc, own) && Grammatical(e)
    ensures Safe(le) <==> SafeSource(e, sc.ids.Keys, own)
    decreases e, 0, 0
  {
    hide Sees, ScopeOk;
    forall i | 0 <= i < |e.kids| ensures Safe(le.kids[i]) <==> SafeSource(e.kids[i], sc.ids.Keys, own) {
      SafeIff(e.kids[i], le.kids[i], sc, v, w, own);
    }
  }

  lemma {:induction false} SafeObject(e: Expr, le: LExpr, sc: Scope, v: View, w: View, own: bool)
    requires e.Obj? && Res(e, le, sc, v) && Ordered(e, le, sc, w) && Sees(v, w) && ScopeOk(sc, own) && Grammatical(e)
    ensures Safe(le) <==> SafeSource(e, sc.ids.Keys, own)
    decreases e, 0, 0
  {
    hide Sees, ScopeOk, ResObj, OrderedObj, SafeObj, SafeObjSource, GrammaticalObj;
    SafeObjIff(e.def, le.def, sc, v, w, own);
  }

  lemma {:induction false} SafeExtend(e: Expr, le: LExpr, sc: Scope, v: View, w: View, own: bool)
    requires e.Extend? && Res(e, le, sc, v) && Ordered(e, le, sc, w) && Sees(v, w) && ScopeOk(sc, own) && Grammatical(e)
    ensures Safe(le) <==> SafeSource(e, sc.ids.Keys, own)
    decreases e, 0, 0
  {
    hide Sees, ScopeOk, ResObj, OrderedObj, SafeObj, SafeObjSource, GrammaticalObj;
    SafeIff(e.base, le.base, sc, v, w, own);
    SafeObjIff(e.def, le.def, sc, v, w, own);
  }

  lemma {:induction false} SafeComp(e: Expr, le: LExpr, sc: Scope, v: View, w: View, own: bool)
    requires e.Comp? && Res(e, le, sc, v) && Ordered(e, le, sc, w) && Sees(v, w) && ScopeOk(sc, own) && Grammatical(e)
    ensures Safe(le) <==> SafeSource(e, sc.ids.Keys, own)
    decreases e, 0, 2 * |e.specs| + 2
  {
    hide Sees, ScopeOk, ResSpecs, OrderedSpecs, SafeSpecs;
    SafeSpecsIff(e, le, 0, sc, v, v, w, w, {}, own);
    assert HasFor(e, 0) by { assert e.specs[0].For?; }
    assert Safe(le) <==> ElementOk(le) && Safe(le.value) && SpecsSafe(le, 0);
  }

  lemma {:induction false} SafeArr(e: Expr, le: LExpr, sc: Scope, v: View, w: View, own: bool)
    requires e.Arr? && Res(e, le, sc, v) && Ordered(e, le, sc, w) && Sees(v, w) && ScopeOk(sc, own) && Grammatical(e)
    ensures Safe(le) <==> SafeSource(e, sc.ids.Keys, own)
    decreases e, 0, 0
  {
    if !AllTrivial(e.items) {
      SeesIds(le.shape, v, w);
      forall i | 0 <= i < |e.items| ensures Safe(le.items[i]) <==> SafeSource(e.items[i], sc.ids.Keys, own) {
        SafeIff(e.items[i], le.items[i], sc, UseView(v, le.shape), UseView(w, le.shape), own);
      }
    }
  }

  lemma {:induction false} SafeLocal(e: Expr, le: LExpr, sc: Scope, v: View, w: View, own: bool)
    requires e.Local? && Res(e, le, sc, v) && Ordered(e, le, sc, w) && Sees(v, w) && ScopeOk(sc, own) && Grammatical(e)
    ensures Safe(le) <==> SafeSource(e, sc.ids.Keys, own)
    decreases e, 0, 1
  {
    if e.binds == [] {
      assert NameSet(Names(e.binds)) == {} && sc.ids.Keys + {} == sc.ids.Keys;
      hide Sees, ScopeOk;
      SafeIff(e.body, le, sc, v, w, own);
    } else {
      SafeFrame(e, le, sc, v, w, own);
    }
  }

  lemma {:induction false} SafeFrame(e: Expr, le: LExpr, sc: Scope, v: View, w: View, own: bool)
    requires e.Local? && e.binds != []
    requires Res(e, le, sc, v) && Ordered(e, le, sc, w) && Sees(v, w) && ScopeOk(sc, own) && Grammatical(e)
    ensures Safe(le) <==> SafeSource(e, sc.ids.Keys, own)
    decreases e, 0, 0
  {
    hide Sees, ScopeOk, BindAll, FV, FVBinds;
    var ns := Names(e.binds);
    BindAllOk(sc, ns, own);
    SeesIds(le.shape, v, w);
    var sc', v', w' := BindAll(sc, ns), EnterView(v, le.shape, sc.next), EnterView(w, le.shape, sc.next);
    SafeBindsIff(e.binds, le.binds, sc', v', w', 0, own);
    SafeIff(e.body, le.body, sc', v', w', own);
  }

  ghost predicate BindsSafe(lbs: seq<LBind>) { forall i :: 0 <= i < |lbs| ==> SafeBind(lbs[i]) }

  lemma {:induction false} SafeBindsIff(bs: seq<Bind>, lbs: seq<LBind>, sc: Scope, v: View, w: View, off: nat, own: bool)
    requires ResBinds(bs, lbs, sc, v, off) && OrderedBinds(bs, lbs, sc, w) && Sees(v, w) && ScopeOk(sc, own)
    requires forall i :: 0 <= i < |bs| ==> GrammaticalBind(bs[i])
    ensures BindsSafe(lbs) <==> SafeSources(bs, sc.ids.Keys, own)
    decreases bs, 0, 0
  {
    forall i | 0 <= i < |bs| ensures SafeBind(lbs[i]) <==> SafeSource(bs[i].value, sc.ids.Keys, own) {
      SafeUseIff(bs[i].value, lbs[i].value, lbs[i].shape, sc, v, w, own);
    }
  }

  lemma {:induction false} SafeUseIff(e: Expr, le: LExpr, sh: Shape, sc: Scope, v: View, w: View, own: bool)
    requires ResUse(e, le, sh, sc, v) && OrderedUse(e, le, sh, sc, w) && Sees(v, w) && ScopeOk(sc, own) && Grammatical(e)
    ensures Safe(le) <==> SafeSource(e, sc.ids.Keys, own)
    decreases e, 2, 0
  {
    SeesIds(sh, v, w);
    SafeIff(e, le, sc, UseView(v, sh), UseView(w, sh), own);
  }

  lemma {:induction false} SafeFn(e: Expr, le: LExpr, sc: Scope, v: View, w: View, own: bool)
    requires e.Fn? && Res(e, le, sc, v) && Ordered(e, le, sc, w) && Sees(v, w) && ScopeOk(sc, own) && Grammatical(e)
    ensures Safe(le) <==> SafeSource(e, sc.ids.Keys, own)
    decreases e, 0, 1
  {
    if le.LIdentity? { SafeIdentity(e, le, sc, v, own); } else { SafeFnFrame(e, le, sc, v, w, own); }
  }

  lemma SafeIdentity(e: Expr, le: LExpr, sc: Scope, v: View, own: bool)
    requires e.Fn? && le.LIdentity? && Res(e, le, sc, v)
    ensures Safe(le) && SafeSource(e, sc.ids.Keys, own)
  {
    var ns := ParamNames(e.params);
    BareRes(e.body, LSlot(SLocal(0)), BindAll(sc, ns), View([], sc.next, 1, false, false));
    BareSafe(e.body, sc.ids.Keys + NameSet(ns), own);
  }

  lemma {:induction false} SafeFnFrame(e: Expr, le: LExpr, sc: Scope, v: View, w: View, own: bool)
    requires e.Fn? && !le.LIdentity? && Res(e, le, sc, v) && Ordered(e, le, sc, w) && Sees(v, w) && ScopeOk(sc, own) && Grammatical(e)
    ensures Safe(le) <==> SafeSource(e, sc.ids.Keys, own)
    decreases e, 0, 0
  {
    var ns := ParamNames(e.params);
    BindAllOk(sc, ns, own);
    SeesIds(le.shape, v, w);
    hide ScopeOk, InOrder, FrameOk, BindAll, ResUse, OrderedUse, EnterView, Ids, ResParam, OrderedParam;
    var sc', v', w' := BindAll(sc, ns), EnterView(v, le.shape, sc.next), EnterView(w, le.shape, sc.next);
    SafeIff(e.body, le.body, sc', v', w', own);
    forall i | 0 <= i < |e.params| && e.params[i].default.Some?
      ensures SafeDefault(e.params[i], le.params[i], sc', own)
    {
      assert ResParam(e.params[i], le.params[i], sc', v', i) && OrderedParam(e.params[i], le.params[i], sc', w');
      SafeParamIff(e.params[i], le.params[i], sc', v', w', i, own);
    }
    SafeParamsIff(e.params, le.params, sc', v', own);
  }

  ghost predicate SafeDefault(p: Param, lp: LParam, sc: Scope, own: bool)
    requires p.default.Some?
  {
    lp.default.Some? && (SafeBind(lp.default.value) <==> SafeSource(p.default.value, sc.ids.Keys, own))
  }

  lemma {:induction false} SafeParamIff(p: Param, lp: LParam, sc: Scope, v: View, w: View, i: nat, own: bool)
    requires p.default.Some? && ResParam(p, lp, sc, v, i) && OrderedParam(p, lp, sc, w) && Sees(v, w) && ScopeOk(sc, own)
    requires Grammatical(p.default.value)
    ensures SafeDefault(p, lp, sc, own)
    decreases p, 0, 0
  {
    var b := lp.default.value;
    SafeUseIff(p.default.value, b.value, b.shape, sc, v, w, own);
  }

  lemma SafeParamsIff(ps: seq<Param>, lps: seq<LParam>, sc: Scope, v: View, own: bool)
    requires |lps| == |ps| && forall i :: 0 <= i < |ps| ==> ResParam(ps[i], lps[i], sc, v, i)
    requires forall i :: 0 <= i < |ps| && ps[i].default.Some? ==> SafeDefault(ps[i], lps[i], sc, own)
    ensures (forall i :: 0 <= i < |lps| && lps[i].default.Some? ==> SafeBind(lps[i].default.value))
            <==> forall i :: 0 <= i < |ps| ==> SafeParam(ps[i], sc.ids.Keys, own)
  {
    hide Safe, SafeBind, SafeSource;
    forall i | 0 <= i < |ps|
      ensures SafeParam(ps[i], sc.ids.Keys, own) <==> (lps[i].default.Some? ==> SafeBind(lps[i].default.value))
    {
      assert ResParam(ps[i], lps[i], sc, v, i);
    }
  }

  lemma {:induction false} BareSafe(e: Expr, dom: set<Name>, own: bool)
    requires Bare(e).Some?
    ensures SafeSource(e, dom, own)
    decreases e
  {
    if e.Local? { BareSafe(e.body, dom + NameSet(Names(e.binds)), own); }
  }

  lemma {:induction false} SafeFieldsIff(fs: seq<Bind>, lfs: seq<LField>, sc: Scope, v: View, w: View, own: bool)
    requires ResFields(fs, lfs, sc, v) && OrderedFields(fs, lfs, sc, w) && Sees(v, w) && ScopeOk(sc, own)
    requires forall i :: 0 <= i < |fs| ==> GrammaticalBind(fs[i])
    ensures FieldsSafe(lfs) <==> SafeSources(fs, sc.ids.Keys, own)
    decreases fs, 0, 0
  {
    hide Sees, ScopeOk, ResUse, OrderedUse, Safe, SafeSource;
    forall i | 0 <= i < |fs| ensures Safe(lfs[i].value) <==> SafeSource(fs[i].value, sc.ids.Keys, own) {
      assert GrammaticalBind(fs[i]);
      SafeUseIff(fs[i].value, lfs[i].value, lfs[i].shape, sc, v, w, own);
    }
  }

  ghost predicate FieldsSafe(lfs: seq<LField>) { forall i :: 0 <= i < |lfs| ==> Safe(lfs[i].value) }

  lemma {:induction false} SafeObjIff(def: ObjBody, ldef: LObjBody, sc: Scope, v: View, w: View, own: bool)
    requires ResObj(def, ldef, sc, v) && OrderedObj(def, ldef, sc, w) && Sees(v, w) && ScopeOk(sc, own) && GrammaticalObj(def)
    ensures SafeObj(ldef) <==> SafeObjSource(def, sc.ids.Keys)
    decreases def, 1, 0
  {
    hide ResBinds, ResFields, OrderedBinds, OrderedFields, ScopeOk, BodyScope, SafeSources, SafeBind, Safe;
    SeesIds(ldef.shape, v, w);
    BodyOk(def, sc, own);
    var sc', v', w', own' := BodyScope(def, sc), ObjView(v, ldef, sc.next), MemberView(w, ldef, sc.next), Outermost(sc.ids.Keys);
    assert Sees(v', w');
    SafeBindsIff(def.locals, ldef.locals, sc', v', w', 1, own');
    SafeFieldsIff(def.fields, ldef.fields, sc', v', w', own');
    assert SafeObj(ldef) <==> BindsSafe(ldef.locals) && FieldsSafe(ldef.fields);
  }

  lemma {:induction false} SafeSpecsIff(c: Expr, lc: LExpr, k: nat, sc: Scope, v: View, v0: View, w: View, w0: View,
                                       bound: set<Name>, own: bool)
    requires c.Comp? && lc.LComp? && |lc.specs| == |c.specs| && k <= |c.specs| && Grammatical(c)
    requires ResSpecs(c, lc, k, sc, v, v0, bound) && OrderedSpecs(c, lc, k, sc, w, w0)
    requires Sees(v, w) && Sees(v0, w0) && ScopeOk(sc, own)
    ensures SafeSpecs(c, k, sc.ids.Keys, own)
            <==> Safe(lc.value) && SpecsSafe(lc, k) && (HasFor(c, k) ==> ElementOk(lc))
    decreases c, 0, 2 * (|c.specs| - k) + 1
  {
    hide Sees, ScopeOk, Safe, SafeSource, ElementOk;
    if k == |c.specs| {
      SafeUseIff(c.value, lc.value, lc.vshape, sc, v, w, own);
    } else if c.specs[k].For? {
      SafeFor(c, lc, k, sc, v, v0, w, w0, bound, own);
    } else {
      hide ResUse, OrderedUse;
      SafeIff(c.specs[k].cond, lc.specs[k].cond, sc, v, w, own);
      SafeSpecsIff(c, lc, k + 1, sc, v, v0, w, w0, bound, own);
    }
  }

  lemma {:induction false} SafeFor(c: Expr, lc: LExpr, k: nat, sc: Scope, v: View, v0: View, w: View, w0: View,
                                  bound: set<Name>, own: bool)
    requires c.Comp? && lc.LComp? && |lc.specs| == |c.specs| && k < |c.specs| && c.specs[k].For? && Grammatical(c)
    requires ResSpecs(c, lc, k, sc, v, v0, bound) && OrderedSpecs(c, lc, k, sc, w, w0)
    requires Sees(v, w) && Sees(v0, w0) && ScopeOk(sc, own)
    ensures SafeSpecs(c, k, sc.ids.Keys, own)
            <==> Safe(lc.value) && SpecsSafe(lc, k) && (HasFor(c, k) ==> ElementOk(lc))
    decreases c, 0, 2 * (|c.specs| - k)
  {
    hide Res, Ordered, ResUse, OrderedUse, Safe, SafeSource, ElementOk, FrameOk, EnterView, Sees, ScopeOk, InOrder, FirstMentioned;
    var ls, over, x := lc.specs[k], c.specs[k].over, Id(c.specs[k].x);
    if ls.inv { SafeIff(over, ls.over, sc, v0, w0, own); } else { SafeIff(over, ls.over, sc, v, w, own); }
    FrameSees(ls.shape, sc, v, w, IdsOf(FVSpecs(c, k), sc));
    var sc', v', w' := Bind1(sc, x), EnterView(v, ls.shape, sc.next), EnterView(w, ls.shape, sc.next);
    BindOk(sc, c.specs[k].x, own);
    SafeSpecsIff(c, lc, k + 1, sc', v', v0, w', w0, bound + {x}, own);
    if LastFor(c, k) {
      AtElement(c, lc, k + 1, sc', v', v0, w', w0, bound + {x});
      ElementIff(c, k, lc, sc, w, ls.shape, v', own);
    }
    ForStep(c, lc, k, sc.ids.Keys, own);
  }

  lemma FrameSees(sh: Shape, sc: Scope, v: View, w: View, free: set<nat>)
    requires Sees(v, w) && FrameOk(sh, v, free)
    ensures ShapeOk(sh, v) && ShapeOk(sh, w) && Sees(EnterView(v, sh, sc.next), EnterView(w, sh, sc.next))
  {
    SeesIds(sh, v, w);
  }

  lemma BindOk(sc: Scope, x: string, own: bool)
    requires ScopeOk(sc, own)
    ensures ScopeOk(Bind1(sc, Id(x)), own) && Bind1(sc, Id(x)).ids.Keys == sc.ids.Keys + {Id(x)}
  {}

  lemma ForStep(c: Expr, lc: LExpr, k: nat, dom: set<Name>, own: bool)
    requires c.Comp? && lc.LComp? && |lc.specs| == |c.specs| && k < |c.specs| && c.specs[k].For? && lc.specs[k].LFor?
    requires Safe(lc.specs[k].over) <==> SafeSource(c.specs[k].over, dom, own)
    requires SafeSpecs(c, k + 1, dom + {Id(c.specs[k].x)}, own)
             <==> Safe(lc.value) && SpecsSafe(lc, k + 1) && (HasFor(c, k + 1) ==> ElementOk(lc))
    requires LastFor(c, k) ==> (ElementOk(lc) <==> FirstMentioned(c, k, dom, own))
    ensures SafeSpecs(c, k, dom, own) <==> Safe(lc.value) && SpecsSafe(lc, k) && (HasFor(c, k) ==> ElementOk(lc))
  {
    hide Safe, SafeSource, ElementOk, FirstMentioned;
    assert SpecsSafe(lc, k) <==> Safe(lc.specs[k].over) && SpecsSafe(lc, k + 1);
    assert LastFor(c, k) <==> !HasFor(c, k + 1);
    assert HasFor(c, k);
  }
}
