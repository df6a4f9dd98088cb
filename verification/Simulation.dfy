/** The packed machine computes what by-name evaluation computes. */
module Simulation {
  import opened Options
  import opened Syntax
  import opened Resolution
  import opened ResolutionLaws
  import opened ByName
  import opened Packed
  import opened Correspondence
  import opened FrameSetup

  ghost predicate Ready(h: Heap, W: Typing, L: Link, ctx: Ctx, le: LExpr, env: Env, e: Expr) {
    HeapOk(h, W) && CtxRel(W, L, ctx, env) && Res(e, le, L.sc, L.v) && Safe(le)
  }

  /** `r` is a run that extends the heap typed by `W` to one typed by `W'` and agrees with `v`. */
  ghost predicate Done(W: Typing, W': Typing, r: Run<LVal>, v: Outcome<Val>) {
    W <= W' && HeapOk(r.h, W') && RelR(W', r.out, v)
  }

  ghost predicate RelTsR(W: Typing, out: LOutcome<seq<LThunk>>, r: Outcome<seq<Thunk>>) {
    match out
    case LOk(lts) => r.Ok? && RelTs(W, lts, r.v)
    case LFails => r.Fails?
    case LOutOfFuel => r.OutOfFuel?
    case Hoisted => true
    case Panic => false
  }

  ghost predicate DoneTs(W: Typing, W': Typing, r: Run<seq<LThunk>>, v: Outcome<seq<Thunk>>) {
    W <= W' && HeapOk(r.h, W') && RelTsR(W', r.out, v)
  }

  // ---------------------------------------------------------------- thunks for arguments and elements

  lemma {:induction false} MkThunkRel(h: Heap, W: Typing, L: Link, ctx: Ctx, le: LExpr, env: Env, e: Expr)
    requires Ready(h, W, L, ctx, le, env, e)
    ensures MkLThunk(h, ctx, le).Some? && RelT(W, MkLThunk(h, ctx, le).value, MkThunk(env, e))
    decreases e
  {
    hide HeapOk, CapsRel, CellsRel, RelL, FV;
    match e
    case Ref(n) => if n != Super { ReadRel(h, W, L, ctx, env, le.s); }
    case Local(binds, body) =>
      if binds == [] {
        MkThunkRel(h, W, L, ctx, le, env, body);
      } else {
        assert RelT(W, LSusp(ctx, le), Susp(env, e));
      }
    case _ => assert RelT(W, LSusp(ctx, le), Susp(env, e));
  }

  lemma ArgsRel(h: Heap, W: Typing, L: Link, ctx: Ctx, les: seq<LExpr>, env: Env, es: seq<Expr>)
    requires HeapOk(h, W) && CtxRel(W, L, ctx, env) && |les| == |es|
    requires forall i :: 0 <= i < |es| ==> Res(es[i], les[i], L.sc, L.v) && Safe(les[i])
    ensures MkLThunks(h, ctx, les).Some? && RelTs(W, MkLThunks(h, ctx, les).value, MkThunks(env, es))
  {
    forall i | 0 <= i < |es|
      ensures MkLThunk(h, ctx, les[i]).Some? && RelT(W, MkLThunk(h, ctx, les[i]).value, MkThunk(env, es[i]))
    {
      MkThunkRel(h, W, L, ctx, les[i], env, es[i]);
    }
  }

  /** An expression that resolved to a bare slot evaluates to what the slot's binder is bound to. */
  lemma {:induction false} SlotEval(fuel: nat, env: Env, e: Expr, s: Slot, sc: Scope, w: seq<Thunk>, v: View)
    requires Res(e, LSlot(s), sc, v) && Match(sc, w, env)
    ensures IdOf(v, s).Some? && IdOf(v, s).value < |w| && Eval(true, fuel, env, e) == Force(true, fuel, w[IdOf(v, s).value])
    decreases e
  {
    if e.Local? { SlotEval(fuel, env, e.body, s, sc, w, v); }
  }

  // ---------------------------------------------------------------- fields

  lemma {:induction false} SameField(fs: seq<Bind>, lfs: seq<LField>, f: string)
    requires |lfs| == |fs| && forall i :: 0 <= i < |fs| ==> lfs[i].name == fs[i].name
    ensures LFieldIndex(lfs, f) == FieldIndex(fs, f)
    decreases |fs|
  {
    if fs != [] { SameField(fs[..|fs| - 1], lfs[..|fs| - 1], f); }
  }

  lemma SameDistinct(fs: seq<Bind>, lfs: seq<LField>)
    requires |lfs| == |fs| && forall i :: 0 <= i < |fs| ==> lfs[i].name == fs[i].name
    ensures LDistinctFields(lfs) <==> DistinctFields(fs)
  {
    if !DistinctFields(fs) {
      var i, j :| 0 <= i < j < |fs| && fs[i].name == fs[j].name;
      assert lfs[i].name == lfs[j].name;
    }
  }

  lemma BodyNames(def: ObjBody, ldef: LObjBody, sc: Scope, v: View)
    requires ResBody(def, ldef, sc, v)
    ensures |ldef.fields| == |def.fields| && forall i :: 0 <= i < |def.fields| ==> ldef.fields[i].name == def.fields[i].name
  {
    assert ResFields(def.fields, ldef.fields, BodyScope(def, sc), v);
  }

  lemma LayerNames(W: Typing, ll: LLayer, l: Layer)
    requires RelL(W, ll, l)
    ensures |ll.def.fields| == |l.def.fields|
    ensures forall i :: 0 <= i < |l.def.fields| ==> ll.def.fields[i].name == l.def.fields[i].name
  {
    hide ResBody;
    var L: Link :| ResBody(l.def, ll.def, L.sc, L.v);
    BodyNames(l.def, ll.def, L.sc, L.v);
  }

  lemma {:induction false} SameLayer(W: Typing, lo: LObjVal, o: ObjVal, top: nat, f: string)
    requires RelO(W, lo, o) && top <= |o.layers|
    ensures LFindLayer(lo.layers, top, f) == FindLayer(o.layers, top, f)
    ensures forall l :: 0 <= l < |o.layers| ==>
              LFieldIndex(lo.layers[l].def.fields, f) == FieldIndex(o.layers[l].def.fields, f)
    decreases top
  {
    hide RelL, ResBody;
    forall l | 0 <= l < |o.layers|
      ensures LFieldIndex(lo.layers[l].def.fields, f) == FieldIndex(o.layers[l].def.fields, f)
    {
      LayerNames(W, lo.layers[l], o.layers[l]);
      SameField(o.layers[l].def.fields, lo.layers[l].def.fields, f);
    }
    if top > 0 { SameLayer(W, lo, o, top - 1, f); }
  }

  // ---------------------------------------------------------------- evaluation

  lemma {:induction false} SimEval(fuel: nat, h: Heap, W: Typing, L: Link, ctx: Ctx, le: LExpr, env: Env, e: Expr)
    returns (W': Typing)
    requires Ready(h, W, L, ctx, le, env, e)
    ensures Done(W, W', Exec(fuel, h, ctx, le), Eval(true, fuel, env, e))
    decreases fuel, 1, e, 1, 0, 0
  {
    hide Exec, Eval, Done, Ready, FV;
    match e
    case Node(_, _) => W' := SimNode(fuel, h, W, L, ctx, le, env, e);
    case Arr(_) => SimArr(fuel, h, W, L, ctx, le, env, e); W' := W;
    case Local(_, _) => W' := SimLocal(fuel, h, W, L, ctx, le, env, e);
    case Fn(_, _) => SimFn(fuel, h, W, L, ctx, le, env, e); W' := W;
    case Obj(_) => W' := SimObj(fuel, h, W, L, ctx, le, env, e);
    case Extend(_, _) => W' := SimExtend(fuel, h, W, L, ctx, le, env, e);
    case Comp(_, _) => W' := SimComp(fuel, h, W, L, ctx, le, env, e);
    case _ => W' := SimName(fuel, h, W, L, ctx, le, env, e);
  }

  lemma {:induction false} SimName(fuel: nat, h: Heap, W: Typing, L: Link, ctx: Ctx, le: LExpr, env: Env, e: Expr)
    returns (W': Typing)
    requires (e.Lit? || e.Ref? || e.SuperField?) && Ready(h, W, L, ctx, le, env, e)
    ensures Done(W, W', Exec(fuel, h, ctx, le), Eval(true, fuel, env, e))
    decreases fuel, 1, e, 0, 0, 0
  {
    hide HeapOk, RelT, RelL, RelO, CapsRel, CellsRel;
    W' := W;
    match e
    case Lit(t) =>
    case Ref(Super) =>
      assert SupRel(W, ctx.sup, env);
      StandaloneRel(W, ctx.sup.value, Enclosing(env).value);
    case Ref(n) =>
      ReadRel(h, W, L, ctx, env, le.s);
      W' := SimForce(fuel, h, W, ReadSlot(h, ctx, le.s).value, L.w[L.sc.ids[n]]);
    case SuperField(f) =>
      assert SupRel(W, ctx.sup, env);
      W' := SimField(fuel, h, W, ctx.sup.value.obj, Enclosing(env).value.obj, Enclosing(env).value.level, f);
  }

  /** `super` as a value. */
  lemma StandaloneRel(W: Typing, ls: SupThis, s: SuperOf)
    requires ls.level == s.level && RelO(W, ls.obj, s.obj)
    ensures RelR(W, LStandalone(ls), Standalone(s))
  {
    if 0 < s.level <= |s.obj.layers| {
      forall i | 0 <= i < s.level ensures RelL(W, LBelow(ls.obj, ls.level).layers[i], Below(s.obj, s.level).layers[i]) {
        BelowRel(W, ls.obj, s.obj, s.level, i);
      }
    }
  }

  lemma BelowRel(W: Typing, lo: LObjVal, o: ObjVal, top: nat, i: nat)
    requires RelO(W, lo, o) && i < top <= |o.layers|
    ensures RelL(W, LBelow(lo, top).layers[i], Below(o, top).layers[i])
  {
    var ll, l := lo.layers[i], o.layers[i];
    assert RelL(W, ll, l);
    var L: Link :|
      && Match(L.sc, L.w, l.env)
      && L.v == View(L.v.caps, L.sc.next, ll.def.shape.n, ll.Early?, ll.Late?)
      && ResBody(l.def, ll.def, L.sc, L.v)
      && CapsRel(W, if ll.Late? then ll.caps else ll.ctx.caps, L.v.caps, L.w);
    if ll.Late? { OwnerRel(W, lo, o, i); }
    hide RelO, CapsRel, Match, ResBody;
  }

  lemma {:induction false} SimLocal(fuel: nat, h: Heap, W: Typing, L: Link, ctx: Ctx, le: LExpr, env: Env, e: Expr)
    returns (W': Typing)
    requires e.Local? && Ready(h, W, L, ctx, le, env, e)
    ensures Done(W, W', Exec(fuel, h, ctx, le), Eval(true, fuel, env, e))
    decreases fuel, 1, e, 0, 0, 0
  {
    hide HeapOk, CtxRel, RelR, FV;
    if e.binds == [] {
      W' := SimEval(fuel, h, W, L, ctx, le, env, e.body);
    } else {
      var W1, L1, c, h1 := LocalReady(h, W, L, ctx, le, env, e);
      W' := SimEval(fuel, h1, W1, L1, c, le.body, Rec(e.binds, env), e.body);
    }
  }

  lemma LocalReady(h: Heap, W: Typing, L: Link, ctx: Ctx, le: LExpr, env: Env, e: Expr)
    returns (W1: Typing, L1: Link, c: Ctx, h1: Heap)
    requires e.Local? && e.binds != [] && Ready(h, W, L, ctx, le, env, e)
    ensures var r := PackCaptures(h, ctx, le.shape.captures);
            r.Some? && c == Ctx(r.value, |h|, ctx.sup) && FillBinds(NewFrame(h, le.shape.n), c, le.binds) == Some(h1)
    ensures W <= W1 && Ready(h1, W1, L1, c, le.body, Rec(e.binds, env), e.body)
  {
    W1, L1 := EnterRec(h, W, L, ctx, env, e.binds, le.shape, le.binds);
    c := Ctx(PackCaptures(h, ctx, le.shape.captures).value, |h|, ctx.sup);
    h1 := FillBinds(NewFrame(h, le.shape.n), c, le.binds).value;
  }

  lemma SimArr(fuel: nat, h: Heap, W: Typing, L: Link, ctx: Ctx, le: LExpr, env: Env, e: Expr)
    requires e.Arr? && Ready(h, W, L, ctx, le, env, e)
    ensures Done(W, W, Exec(fuel, h, ctx, le), Eval(true, fuel, env, e))
  {
    hide HeapOk, RelL, RelO, CapsRel, CellsRel, FV;
    if !AllTrivial(e.items) {
      hide CtxRel, RelT, UseCtx;
      ItemsRel(W, L, ctx, le, env, e);
      EnterUsingIs(h, ctx, le.shape);
    }
  }

  /** Every item is suspended in the closure of the array. */
  lemma ItemsRel(W: Typing, L: Link, ctx: Ctx, le: LExpr, env: Env, e: Expr)
    requires e.Arr? && !AllTrivial(e.items) && CtxRel(W, L, ctx, env) && Res(e, le, L.sc, L.v) && Safe(le)
    ensures le.LArr? && UseOk(le.shape, |ctx.caps|)
    ensures RelTs(W, LSuspended(UseCtx(ctx, le.shape), le.items), Suspended(env, e.items))
  {
    hide RelL, RelO, CapsRel, CellsRel, FV;
    UseRel(W, L, ctx, env, le.shape);
    var c, L' := UseCtx(ctx, le.shape), UseLink(L, le.shape);
    forall i | 0 <= i < |e.items| ensures RelT(W, LSusp(c, le.items[i]), Susp(env, e.items[i])) {
      assert Res(e.items[i], le.items[i], L'.sc, L'.v) && CtxRel(W, L', c, env);
    }
  }

  lemma SimFn(fuel: nat, h: Heap, W: Typing, L: Link, ctx: Ctx, le: LExpr, env: Env, e: Expr)
    requires e.Fn? && Ready(h, W, L, ctx, le, env, e)
    ensures Done(W, W, Exec(fuel, h, ctx, le), Eval(true, fuel, env, e))
  {
    hide HeapOk, RelT, RelL, RelO, CtxRel, Res, Safe, FV, PackCaptures, FnRel;
    if le.LIdentity? {
      FnIdentity(h, W, L, ctx, le, env, e);
    } else {
      var caps, L' := FnCaptured(h, W, L, ctx, le, env, e);
    }
  }

  lemma FnIdentity(h: Heap, W: Typing, L: Link, ctx: Ctx, le: LExpr, env: Env, e: Expr)
    requires e.Fn? && le.LIdentity? && Ready(h, W, L, ctx, le, env, e)
    ensures IdRel(L, e.params, e.body, env)
  {
    hide HeapOk, RelT, RelL, RelO, CellsRel, FV;
  }

  lemma FnCaptured(h: Heap, W: Typing, L: Link, ctx: Ctx, le: LExpr, env: Env, e: Expr)
    returns (caps: seq<LThunk>, L': Link)
    requires e.Fn? && !le.LIdentity? && Ready(h, W, L, ctx, le, env, e)
    ensures le.LFn? && PackCaptures(h, ctx, le.shape.captures) == Some(caps) && FnRel(W, L', caps, ctx.sup, le, e.params, e.body, env)
  {
    hide HeapOk, RelT, RelL, RelO, CellsRel, FV;
    PackRel(h, W, L, ctx, env, le.shape);
    caps, L' := PackCaptures(h, ctx, le.shape.captures).value, L.(v := EnterView(L.v, le.shape, L.sc.next));
  }

  lemma SimObj(fuel: nat, h: Heap, W: Typing, L: Link, ctx: Ctx, le: LExpr, env: Env, e: Expr)
    returns (W': Typing)
    requires e.Obj? && Ready(h, W, L, ctx, le, env, e)
    ensures Done(W, W', Exec(fuel, h, ctx, le), Eval(true, fuel, env, e))
  {
    hide HeapOk, RelT, RelL, CtxRel, ResObj, SafeObj, BuildLayer;
    W' := W;
    BodyFields(e.def, le.def, L.sc, L.v);
    if DistinctFields(e.def.fields) { W' := BuildRel(h, W, L, ctx, env, e.def, le.def); }
  }

  lemma BodyFields(def: ObjBody, ldef: LObjBody, sc: Scope, v: View)
    requires ResObj(def, ldef, sc, v)
    ensures LDistinctFields(ldef.fields) <==> DistinctFields(def.fields)
  {
    BodyNames(def, ldef, sc, ObjView(v, ldef, sc.next));
    SameDistinct(def.fields, ldef.fields);
  }

  lemma {:induction false} SimExtend(fuel: nat, h: Heap, W: Typing, L: Link, ctx: Ctx, le: LExpr, env: Env, e: Expr)
    returns (W': Typing)
    requires e.Extend? && Ready(h, W, L, ctx, le, env, e)
    ensures Done(W, W', Exec(fuel, h, ctx, le), Eval(true, fuel, env, e))
    decreases fuel, 1, e, 0, 0, 0
  {
    hide Exec, Eval, Done, HeapOk, CtxRel, FV;
    var W1 := SimEval(fuel, h, W, L, ctx, le.base, env, e.base);
    W' := BuildExtension(fuel, h, W, W1, L, ctx, le, env, e);
  }

  /** `base { def }`, once `base` has run. */
  lemma BuildExtension(fuel: nat, h: Heap, W: Typing, W1: Typing, L: Link, ctx: Ctx, le: LExpr, env: Env, e: Expr)
    returns (W': Typing)
    requires e.Extend? && Ready(h, W, L, ctx, le, env, e)
    requires Done(W, W1, Exec(fuel, h, ctx, le.base), Eval(true, fuel, env, e.base))
    ensures Done(W, W', Exec(fuel, h, ctx, le), Eval(true, fuel, env, e))
  {
    hide HeapOk, RelL, CtxRel, ResObj, SafeObj, BuildLayer;
    W' := W1;
    var r := Exec(fuel, h, ctx, le.base);
    BodyFields(e.def, le.def, L.sc, L.v);
    if r.out.LOk? && r.out.v.LObjV? && DistinctFields(e.def.fields) {
      GrowCtx(W, W1, L, ctx, env);
      W' := BuildRel(r.h, W1, L, ctx, env, e.def, le.def);
      var lo, o := r.out.v.obj, Eval(true, fuel, env, e.base).v.obj;
      GrowO(W1, W', lo, o);
      var l := BuildLayer(r.h, ctx, le.def).out.v;
      assert RelO(W', LObjVal(lo.layers + [l]), ObjVal(o.layers + [Layer(env, e.def, None)]));
    }
  }

  lemma {:induction false} SimForce(fuel: nat, h: Heap, W: Typing, lt: LThunk, t: Thunk) returns (W': Typing)
    requires HeapOk(h, W) && RelT(W, lt, t)
    ensures Done(W, W', ForceL(fuel, h, lt), Force(true, fuel, t))
    decreases fuel, 0, Lit(Null), 1, 0, 0
  {
    hide HeapOk, Match, CapsRel, CellsRel, RelL;
    W' := W;
    if lt.LSusp? && fuel > 0 {
      var L: Link :| Res(t.e, lt.e, L.sc, L.v) && CtxRel(W, L, lt.ctx, t.env);
      W' := SimEval(fuel - 1, h, W, L, lt.ctx, lt.e, t.env, t.e);
    }
  }

  /** Reaching the `i`-th field of layer `l`. */
  lemma EnterMember(h: Heap, W: Typing, lo: LObjVal, o: ObjVal, l: nat, i: nat)
    returns (W1: Typing, L1: Link, c: Ctx)
    requires HeapOk(h, W) && RelO(W, lo, o) && l < |o.layers| && i < |o.layers[l].def.fields|
    ensures i < |lo.layers[l].def.fields| && MemberCtx(h, lo, l).out.LOk? && W <= W1
    ensures var r, lf, d := MemberCtx(h, lo, l), lo.layers[l].def.fields[i], o.layers[l].def;
            && EnterUsing(r.h, r.out.v, lf.shape) == Some(c)
            && Ready(r.h, W1, L1, c, lf.value, MemberEnv(o, l), d.fields[i].value)
  {
    var d, ld := o.layers[l].def, lo.layers[l].def;
    var L2, sc;
    W1, L2, sc := MemberRel(h, W, lo, o, l);
    var r := MemberCtx(h, lo, l);
    assert ResFields(d.fields, ld.fields, L2.sc, L2.v);
    assert RelL(W, lo.layers[l], o.layers[l]);
    var sh := ld.fields[i].shape;
    assert ResUse(d.fields[i].value, ld.fields[i].value, sh, L2.sc, L2.v);
    UseRel(W1, L2, r.out.v, MemberEnv(o, l), sh);
    EnterUsingIs(r.h, r.out.v, sh);
    L1, c := UseLink(L2, sh), UseCtx(r.out.v, sh);
  }

  lemma {:induction false} SimField(fuel: nat, h: Heap, W: Typing, lo: LObjVal, o: ObjVal, top: nat, f: string)
    returns (W': Typing)
    requires HeapOk(h, W) && RelO(W, lo, o)
    ensures Done(W, W', GetFieldL(fuel, h, lo, top, f), GetField(true, fuel, o, top, f))
    decreases fuel, 0, Lit(Null), 1, 0, 0
  {
    hide Exec, Eval, Res, RelT, RelL, CtxRel, HeapOk, Ready, MemberCtx, EnterUsing;
    W' := W;
    if top <= |o.layers| {
      SameLayer(W, lo, o, top, f);
      if FindLayer(o.layers, top, f).Some? && fuel > 0 {
        var l := FindLayer(o.layers, top, f).value;
        var i := FieldIndex(o.layers[l].def.fields, f).value;
        var W1, L1, c := EnterMember(h, W, lo, o, l, i);
        W' := SimEval(fuel - 1, MemberCtx(h, lo, l).h, W1, L1, c, lo.layers[l].def.fields[i].value,
                      MemberEnv(o, l), o.layers[l].def.fields[i].value);
      }
    }
  }

  lemma {:induction false} SimCall(fuel: nat, h: Heap, W: Typing, lv: LVal, v: Val, largs: seq<LThunk>, args: seq<Thunk>)
    returns (W': Typing)
    requires HeapOk(h, W) && RelV(W, lv, v) && RelTs(W, largs, args)
    ensures Done(W, W', CallL(fuel, h, lv, largs), CallVal(true, fuel, v, args))
    decreases fuel, 0, Lit(Null), 2, 0, 0
  {
    hide Exec, Eval, Res, RelT, RelL, CtxRel, HeapOk, Ready, FillBinds, FillArgs;
    W' := W;
    if lv.LId? {
      W' := SimIdentity(fuel, h, W, v, largs, args);
    } else if lv.LClosure? {
      var L: Link :| FnRel(W, L, lv.caps, lv.sup, lv.fn, v.params, v.body, v.env);
      SameArity(L, lv.fn, v.params, |args|);
      if CanCall(v.params, |args|) && fuel > 0 {
        var W1, L1, h2 := CallReady(h, W, L, lv, v, largs, args);
        W' := SimEval(fuel - 1, h2, W1, L1, Ctx(lv.caps, |h|, lv.sup), lv.fn.body, Call(v.params, args, v.env), v.body);
      }
    }
  }

  lemma CallReady(h: Heap, W: Typing, L: Link, lv: LVal, v: Val, largs: seq<LThunk>, args: seq<Thunk>)
    returns (W1: Typing, L1: Link, h2: Heap)
    requires lv.LClosure? && v.VClosure? && FnRel(W, L, lv.caps, lv.sup, lv.fn, v.params, v.body, v.env)
    requires HeapOk(h, W) && RelTs(W, largs, args) && CanCall(v.params, |args|) && LCanCall(lv.fn.params, |largs|)
    ensures var r := FillArgs(NewFrame(h, lv.fn.shape.n), |h|, lv.fn.params, largs);
            r.Some? && FillBinds(r.value, Ctx(lv.caps, |h|, lv.sup), Defaults(lv.fn.params, |largs|)) == Some(h2)
    ensures W <= W1
    ensures Ready(h2, W1, L1, Ctx(lv.caps, |h|, lv.sup), lv.fn.body, Call(v.params, args, v.env), v.body)
  {
    W1, L1 := EnterCall(h, W, L, lv.caps, lv.sup, lv.fn, v.params, v.body, v.env, largs, args);
    var h1 := FillArgs(NewFrame(h, lv.fn.shape.n), |h|, lv.fn.params, largs).value;
    h2 := FillBinds(h1, Ctx(lv.caps, |h|, lv.sup), Defaults(lv.fn.params, |largs|)).value;
  }

  lemma {:induction false} SimIdentity(fuel: nat, h: Heap, W: Typing, v: Val, largs: seq<LThunk>, args: seq<Thunk>)
    returns (W': Typing)
    requires HeapOk(h, W) && RelV(W, LId, v) && RelTs(W, largs, args)
    ensures Done(W, W', CallL(fuel, h, LId, largs), CallVal(true, fuel, v, args))
    decreases fuel, 0, Lit(Null), 1, 0, 0
  {
    W' := W;
    hide RelT, RelO, RelL, CapsRel, CellsRel, Match, Res, HeapOk, Eval, Exec;
    var L: Link :| IdRel(L, v.params, v.body, v.env);
    if |args| == 1 && fuel > 0 {
      var env' := Call(v.params, args, v.env);
      MatchCall(L.sc, L.w, v.env, v.params, args);
      SlotEval(fuel - 1, env', v.body, SLocal(0), BindAll(L.sc, ParamNames(v.params)),
               L.w + CallThunks(v.params, args, env'), View([], L.sc.next, 1, false, false));
      W' := SimForce(fuel - 1, h, W, largs[0], args[0]);
    }
  }

  lemma SameArity(L: Link, fn: LExpr, params: seq<Param>, n: nat)
    requires fn.LFn? && |fn.params| == |params|
    requires forall i :: 0 <= i < |params| ==>
               ResParam(params[i], fn.params[i], BindAll(L.sc, ParamNames(params)), L.v, i)
    ensures LCanCall(fn.params, n) <==> CanCall(params, n)
  {
    forall i | 0 <= i < |params| ensures fn.params[i].default.Some? == params[i].default.Some? {
      assert ResParam(params[i], fn.params[i], BindAll(L.sc, ParamNames(params)), L.v, i);
    }
  }

  lemma {:induction false} SimIndex(fuel: nat, h: Heap, W: Typing, lv: LVal, v: Val, lk: LVal, k: Val)
    returns (W': Typing)
    requires HeapOk(h, W) && RelV(W, lv, v) && RelV(W, lk, k)
    ensures Done(W, W', IndexL(fuel, h, lv, lk), IndexVal(true, fuel, v, k))
    decreases fuel, 0, Lit(Null), 2, 0, 0
  {
    W' := W;
    if lk.LTriv? {
      if lv.LObjV? && lk.t.Str? {
        W' := SimField(fuel, h, W, lv.obj, v.obj, |v.obj.layers|, lk.t.s);
      } else if lv.LArrV? && lk.t.Num? && 0 <= lk.t.n < |v.items| {
        W' := SimForce(fuel, h, W, lv.items[lk.t.n], v.items[lk.t.n]);
      } else if lv.LConsts? && lk.t.Num? && 0 <= lk.t.n < |v.items| && fuel > 0 {
        var t := v.items[lk.t.n];
        assert Eval(true, fuel - 1, t.env, t.e) == Ok(VTriv(lv.consts[lk.t.n]));
      }
    }
  }

  // ---------------------------------------------------------------- constructs with children in place

  lemma KidReady(h: Heap, h1: Heap, W: Typing, W1: Typing, L: Link, ctx: Ctx, le: LExpr, env: Env, e: Expr, i: nat)
    requires e.Node? && i < |e.kids| && Ready(h, W, L, ctx, le, env, e) && W <= W1 && HeapOk(h1, W1)
    ensures i < |le.kids| && |le.kids| == |e.kids| && le.op == e.op && Ready(h1, W1, L, ctx, le.kids[i], env, e.kids[i])
  {
    hide HeapOk, CtxRel, FV;
    GrowCtx(W, W1, L, ctx, env);
  }

  lemma {:induction false} SimNode(fuel: nat, h: Heap, W: Typing, L: Link, ctx: Ctx, le: LExpr, env: Env, e: Expr)
    returns (W': Typing)
    requires e.Node? && Ready(h, W, L, ctx, le, env, e)
    ensures Done(W, W', Exec(fuel, h, ctx, le), Eval(true, fuel, env, e))
    decreases fuel, 1, e, 0, 1, 0
  {
    hide HeapOk, CtxRel, FV, ExecNode, EvalNode, RelV;
    assert Exec(fuel, h, ctx, le) == ExecNode(fuel, h, ctx, le) && Eval(true, fuel, env, e) == EvalNode(true, fuel, env, e);
    if e.kids == [] {
      W' := W;
      NoKids(fuel, h, W, L, ctx, le, env, e);
    } else {
      KidReady(h, h, W, W, L, ctx, le, env, e, 0);
      var W1 := SimEval(fuel, h, W, L, ctx, le.kids[0], env, e.kids[0]);
      if Exec(fuel, h, ctx, le.kids[0]).out.LOk? {
        match e.op
        case If => W' := SimIf(fuel, h, W, W1, L, ctx, le, env, e);
        case Apply => W' := SimApply(fuel, h, W, W1, L, ctx, le, env, e);
        case Error => W' := W1; ErrorFails(fuel, h, W, W1, L, ctx, le, env, e);
        case _ => W' := SimTwo(fuel, h, W, W1, L, ctx, le, env, e);
      } else {
        W' := W1;
        KidFails(fuel, h, W, W1, L, ctx, le, env, e);
      }
    }
  }

  lemma NoKids(fuel: nat, h: Heap, W: Typing, L: Link, ctx: Ctx, le: LExpr, env: Env, e: Expr)
    requires e.Node? && e.kids == [] && Ready(h, W, L, ctx, le, env, e)
    ensures le.LNode? && Done(W, W, ExecNode(fuel, h, ctx, le), EvalNode(true, fuel, env, e))
  {
    hide CtxRel, FV;
  }

  /** Both sides have run the first child of `e`. */
  ghost predicate FirstDone(fuel: nat, h: Heap, W: Typing, W1: Typing, L: Link, ctx: Ctx, le: LExpr, env: Env, e: Expr) {
    && e.Node? && e.kids != [] && Ready(h, W, L, ctx, le, env, e)
    && le.LNode? && |le.kids| == |e.kids| && le.op == e.op
    && Done(W, W1, Exec(fuel, h, ctx, le.kids[0]), Eval(true, fuel, env, e.kids[0]))
  }

  lemma KidFails(fuel: nat, h: Heap, W: Typing, W1: Typing, L: Link, ctx: Ctx, le: LExpr, env: Env, e: Expr)
    requires FirstDone(fuel, h, W, W1, L, ctx, le, env, e) && !Exec(fuel, h, ctx, le.kids[0]).out.LOk?
    ensures Done(W, W1, ExecNode(fuel, h, ctx, le), EvalNode(true, fuel, env, e))
  {
    hide CtxRel, FV, Exec, Eval, Res, HeapOk;
  }

  lemma ErrorFails(fuel: nat, h: Heap, W: Typing, W1: Typing, L: Link, ctx: Ctx, le: LExpr, env: Env, e: Expr)
    requires FirstDone(fuel, h, W, W1, L, ctx, le, env, e) && e.op.Error? && Exec(fuel, h, ctx, le.kids[0]).out.LOk?
    ensures Done(W, W1, ExecNode(fuel, h, ctx, le), EvalNode(true, fuel, env, e))
  {
    hide CtxRel, FV, Exec, Eval, Res, HeapOk;
  }

  lemma {:induction false} SimIf(fuel: nat, h: Heap, W: Typing, W1: Typing, L: Link, ctx: Ctx, le: LExpr, env: Env, e: Expr)
    returns (W': Typing)
    requires FirstDone(fuel, h, W, W1, L, ctx, le, env, e) && e.op.If? && Exec(fuel, h, ctx, le.kids[0]).out.LOk?
    ensures Done(W, W', ExecNode(fuel, h, ctx, le), EvalNode(true, fuel, env, e))
    decreases fuel, 1, e, 0, 0, 0
  {
    hide CtxRel, FV, Exec, Eval, Res, HeapOk, Ready;
    W' := W1;
    var r := Exec(fuel, h, ctx, le.kids[0]);
    if r.out.v.LTriv? && r.out.v.t.Bool? && 2 <= |e.kids| {
      if r.out.v.t.b {
        KidReady(h, r.h, W, W1, L, ctx, le, env, e, 1);
        W' := SimEval(fuel, r.h, W1, L, ctx, le.kids[1], env, e.kids[1]);
      } else if 3 <= |e.kids| {
        KidReady(h, r.h, W, W1, L, ctx, le, env, e, 2);
        W' := SimEval(fuel, r.h, W1, L, ctx, le.kids[2], env, e.kids[2]);
      }
    }
  }

  lemma {:induction false} SimTwo(fuel: nat, h: Heap, W: Typing, W1: Typing, L: Link, ctx: Ctx, le: LExpr, env: Env, e: Expr)
    returns (W': Typing)
    requires FirstDone(fuel, h, W, W1, L, ctx, le, env, e) && (e.op.And? || e.op.Bin? || e.op.Index?)
    requires Exec(fuel, h, ctx, le.kids[0]).out.LOk?
    ensures Done(W, W', ExecNode(fuel, h, ctx, le), EvalNode(true, fuel, env, e))
    decreases fuel, 1, e, 0, 0, 0
  {
    hide CtxRel, FV, Exec, Eval, Res, HeapOk, Ready, IndexL, IndexVal;
    W' := W1;
    var r := Exec(fuel, h, ctx, le.kids[0]);
    if |e.kids| >= 2 && !(e.op.And? && r.out.v == LTriv(Bool(false))) {
      KidReady(h, r.h, W, W1, L, ctx, le, env, e, 1);
      W' := SimEval(fuel, r.h, W1, L, ctx, le.kids[1], env, e.kids[1]);
      var r2 := Exec(fuel, r.h, ctx, le.kids[1]);
      if e.op.Index? && r2.out.LOk? {
        GrowV(W1, W', r.out.v, Eval(true, fuel, env, e.kids[0]).v);
        W' := SimIndex(fuel, r2.h, W', r.out.v, Eval(true, fuel, env, e.kids[0]).v, r2.out.v, Eval(true, fuel, env, e.kids[1]).v);
      }
    }
  }

  lemma {:induction false} SimApply(fuel: nat, h: Heap, W: Typing, W1: Typing, L: Link, ctx: Ctx, le: LExpr, env: Env, e: Expr)
    returns (W': Typing)
    requires FirstDone(fuel, h, W, W1, L, ctx, le, env, e) && e.op.Apply? && Exec(fuel, h, ctx, le.kids[0]).out.LOk?
    ensures Done(W, W', ExecNode(fuel, h, ctx, le), EvalNode(true, fuel, env, e))
    decreases fuel, 1, e, 0, 0, 0
  {
    hide FV, Exec, Eval, HeapOk, CallL, CallVal, CtxRel;
    var r := Exec(fuel, h, ctx, le.kids[0]);
    GrowCtx(W, W1, L, ctx, env);
    ArgsRel(r.h, W1, L, ctx, le.kids[1..], env, e.kids[1..]);
    W' := SimCall(fuel, r.h, W1, r.out.v, Eval(true, fuel, env, e.kids[0]).v,
                  MkLThunks(r.h, ctx, le.kids[1..]).value, MkThunks(env, e.kids[1..]));
  }

  // ---------------------------------------------------------------- comprehensions

  ghost function Forget(sc: Scope, n: Name): Scope { Scope(sc.ids - {n}, sc.next) }

  /** Iteration variables an expression does not mention play no part in running it. */
  lemma {:induction false} TrimReady(h: Heap, W: Typing, L: Link, ctx: Ctx, le: LExpr, env: Env, e: Expr)
    returns (L': Link)
    requires Ready(h, W, L, ctx, le, env, e)
    ensures Ready(h, W, L', ctx, le, Trim(env, e), e)
    decreases env
  {
    hide HeapOk, RelT, RelO, CapsRel, CellsRel, Res;
    L' := L;
    if env.Iter? && Id(env.x) !in FV(e) {
      var sc := Forget(L.sc, Id(env.x));
      ResMoves(e, le, L.sc, sc, L.v, L.v);
      assert Match(sc, L.w, env.up);
      assert Enclosing(env.up) == Enclosing(env);
      assert L.v.sup ==> SupRel(W, ctx.sup, env);
      assert CtxRel(W, L.(sc := sc), ctx, env.up);
      L' := TrimReady(h, W, L.(sc := sc), ctx, le, env.up, e);
    }
  }

  /** `env` is `env0` under iteration variables among `bound`. */
  ghost predicate Chain(env: Env, env0: Env, bound: set<Name>) {
    env == env0 || (env.Iter? && Id(env.x) in bound && Chain(env.up, env0, bound))
  }

  lemma {:induction false} TrimChain(env: Env, env0: Env, bound: set<Name>, e: Expr)
    requires Chain(env, env0, bound) && FV(e) !! bound
    ensures Trim(env, e) == Trim(env0, e)
    decreases env
  {
    if env != env0 { TrimChain(env.up, env0, bound, e); }
  }

  lemma {:induction false} ChainGrows(env: Env, env0: Env, bound: set<Name>, more: set<Name>)
    requires Chain(env, env0, bound) && bound <= more
    ensures Chain(env, env0, more)
    decreases env
  {
    if env != env0 { ChainGrows(env.up, env0, bound, more); }
  }

  /** The elements of an array value, however it is represented. */
  lemma ElementsRel(W: Typing, lv: LVal, v: Val)
    requires RelV(W, lv, v)
    ensures Elements(lv).Some? <==> v.VArr?
    ensures v.VArr? ==> RelTs(W, Elements(lv).value, v.items)
  {
    hide RelO, RelL, FnRel, IdRel;
    if lv.LConsts? {
      forall i | 0 <= i < |lv.consts| ensures RelT(W, Elements(lv).value[i], v.items[i]) {
        LiteralRel(W, v.items[i].env, lv.consts[i]);
      }
    }
  }

  lemma LiteralRel(W: Typing, env: Env, t: Trivial)
    ensures RelT(W, LSusp(Ctx([], 0, None), LLit(t)), Susp(env, Lit(t)))
  {
    hide RelO, RelL, FV;
    var v := View([], 0, 0, false, false);
    var d := Lookup(env, Dollar);
    var L := if d.Some? then Link(Scope(map[Dollar := 0], 1), [d.value], v) else Link(Scope(map[], 0), [], v);
    assert Res(Lit(t), LLit(t), L.sc, L.v) && CtxRel(W, L, Ctx([], 0, None), env);
  }

  /** A loop-invariant source resolves in the scope outside the comprehension. */
  lemma {:induction false} HoistedRes(c: Expr, lc: LExpr, k: nat, sc: Scope, v: View, v0: View, bound: set<Name>, j: nat,
                                     sc0: Scope) returns (next: nat)
    requires c.Comp? && lc.LComp? && |lc.specs| == |c.specs| && k <= j < |c.specs|
    requires ResSpecs(c, lc, k, sc, v, v0, bound)
    requires forall n :: n !in bound ==> (n in sc.ids <==> n in sc0.ids) && (n in sc.ids ==> sc.ids[n] == sc0.ids[n])
    requires lc.specs[j].LFor? && lc.specs[j].inv && c.specs[j].For?
    ensures next >= sc.next && Res(c.specs[j].over, lc.specs[j].over, Scope(sc0.ids, next), v0)
    decreases |c.specs| - k
  {
    hide Res, FV;
    if k == j {
      next := sc.next;
      ResMoves(c.specs[j].over, lc.specs[j].over, sc, Scope(sc0.ids, next), v0, v0);
    } else {
      match c.specs[k]
      case Cond(_) => next := HoistedRes(c, lc, k + 1, sc, v, v0, bound, j, sc0);
      case For(x, _) =>
        next := HoistedRes(c, lc, k + 1, Bind1(sc, Id(x)), EnterView(v, lc.specs[k].shape, sc.next), v0,
                           bound + {Id(x)}, j, sc0);
    }
  }

  /** Ids beyond those in use may be given any meaning. */
  lemma PadReady(W: Typing, L: Link, ctx: Ctx, env: Env, next: nat) returns (L': Link)
    requires CtxRel(W, L, ctx, env) && next >= L.sc.next
    ensures CtxRel(W, L', ctx, env) && L'.sc == Scope(L.sc.ids, next) && L'.v == L.v
  {
    hide RelT, RelO;
    var pad := seq(next - |L.w|, i => Susp(env, Lit(Null)));
    L' := Link(Scope(L.sc.ids, next), L.w + pad, L.v);
    forall i | 0 <= i < |L.v.caps| ensures L'.w[L.v.caps[i]] == L.w[L.v.caps[i]] {}
    forall j: nat | IdOf(L.v, SLocal(j)).Some? ensures CellIs(W, ctx.frame, j, L.v.first + j, L'.w) {
      assert CellIs(W, ctx.frame, j, L.v.first + j, L.w);
    }
  }

  /** What has been cached is what by-name evaluation of those sources yields, in whichever
      iteration it takes place. */
  ghost predicate CachedRel(W: Typing, cached: seq<Option<seq<LThunk>>>, fuel: nat, env0: Env, c: Expr, lc: LExpr)
    requires c.Comp? && lc.LComp? && |lc.specs| == |c.specs| && |cached| <= |c.specs|
  {
    forall j :: 0 <= j < |cached| ==> CachedOne(W, cached[j], fuel, env0, c.specs[j], lc.specs[j])
  }

  ghost predicate CachedOne(W: Typing, items: Option<seq<LThunk>>, fuel: nat, env0: Env, s: Spec, ls: LSpec) {
    && (items.Some? <==> ls.LFor? && ls.inv)
    && (items.Some? ==>
          && s.For?
          && var v := Eval(true, fuel, Trim(env0, s.over), s.over);
             v.Ok? && v.v.VArr? && RelTs(W, items.value, v.v.items))
  }

  lemma GrowCached(W: Typing, W': Typing, cached: seq<Option<seq<LThunk>>>, fuel: nat, env0: Env, c: Expr, lc: LExpr)
    requires c.Comp? && lc.LComp? && |lc.specs| == |c.specs| && |cached| <= |c.specs|
    requires W <= W' && CachedRel(W, cached, fuel, env0, c, lc)
    ensures CachedRel(W', cached, fuel, env0, c, lc)
  {
    hide Eval, RelTs;
    forall j | 0 <= j < |cached| ensures CachedOne(W', cached[j], fuel, env0, c.specs[j], lc.specs[j]) {
      assert CachedOne(W, cached[j], fuel, env0, c.specs[j], lc.specs[j]);
      if cached[j].Some? {
        GrowTs(W, W', cached[j].value, Eval(true, fuel, Trim(env0, c.specs[j].over), c.specs[j].over).v.items);
      }
    }
  }

  lemma {:induction false} SpecKinds(c: Expr, lc: LExpr, k: nat, sc: Scope, v: View, v0: View, bound: set<Name>, j: nat)
    requires c.Comp? && lc.LComp? && |lc.specs| == |c.specs| && k <= j < |c.specs|
    requires ResSpecs(c, lc, k, sc, v, v0, bound)
    ensures c.specs[j].For? == lc.specs[j].LFor?
    decreases |c.specs| - k
  {
    hide Res, FV;
    if k < j {
      match c.specs[k]
      case Cond(_) => SpecKinds(c, lc, k + 1, sc, v, v0, bound, j);
      case For(x, _) =>
        SpecKinds(c, lc, k + 1, Bind1(sc, Id(x)), EnterView(v, lc.specs[k].shape, sc.next), v0, bound + {Id(x)}, j);
    }
  }

  /** Running a loop-invariant source ahead of its loop. */
  lemma {:induction false} SimHoisted(fuel: nat, h: Heap, W: Typing, L: Link, ctx: Ctx, lc: LExpr, env: Env, c: Expr, j: nat)
    returns (W': Typing)
    requires c.Comp? && Ready(h, W, L, ctx, lc, env, c)
    requires j < |c.specs| && lc.specs[j].LFor? && lc.specs[j].inv
    ensures c.specs[j].For?
    ensures Done(W, W', Exec(fuel, h, ctx, lc.specs[j].over), Eval(true, fuel, Trim(env, c.specs[j].over), c.specs[j].over))
    decreases fuel, 1, c, 0, 0, 0
  {
    hide HeapOk, CtxRel, FV, Exec, Eval, ResSpecs, Done;
    assert ResSpecs(c, lc, 0, L.sc, L.v, L.v, {});
    SpecKinds(c, lc, 0, L.sc, L.v, L.v, {}, j);
    var next := HoistedRes(c, lc, 0, L.sc, L.v, L.v, {}, j, L.sc);
    var L1 := PadReady(W, L, ctx, env, next);
    var over, lover := c.specs[j].over, lc.specs[j].over;
    assert Ready(h, W, L1, ctx, lover, env, over);
    var L2 := TrimReady(h, W, L1, ctx, lover, env, over);
    W' := SimEval(fuel, h, W, L2, ctx, lover, Trim(env, over), over);
  }

  lemma {:induction false} SimCache(fuel: nat, h: Heap, W: Typing, L: Link, ctx: Ctx, lc: LExpr, env: Env, c: Expr, k: nat)
    returns (W': Typing)
    requires c.Comp? && Ready(h, W, L, ctx, lc, env, c) && k <= |c.specs|
    ensures |lc.specs| == |c.specs| && W <= W'
    ensures var r := CacheOvers(fuel, h, ctx, lc, k);
            && HeapOk(r.h, W') && !r.out.Panic?
            && (r.out.LOk? ==> CachedRel(W', r.out.v, fuel, env, c, lc))
            && (r.out.LFails? ==> EvalSpecs(true, fuel, env, c, 0).Fails?)
            && (r.out.LOutOfFuel? ==> EvalSpecs(true, fuel, env, c, 0).OutOfFuel?)
    decreases fuel, 1, c, 0, k, 1
  {
    hide HeapOk, CtxRel, FV, Exec, Eval, RelTs, Res, ResSpecs, RelV;
    CompLengths(h, W, L, ctx, lc, env, c);
    if k == 0 {
      W' := W;
    } else {
      var W1 := SimCache(fuel, h, W, L, ctx, lc, env, c, k - 1);
      W' := W1;
      var r, s := CacheOvers(fuel, h, ctx, lc, k - 1), lc.specs[k - 1];
      if r.out.LOk? {
        if s.LFor? && s.inv {
          GrowCtx(W, W1, L, ctx, env);
          W' := SimHoisted(fuel, r.h, W1, L, ctx, lc, env, c, k - 1);
          GrowCached(W1, W', r.out.v, fuel, env, c, lc);
        }
        CachedStep(fuel, h, W1, W', ctx, lc, env, c, k - 1);
      }
    }
  }

  /** One more source has been run, or left for its loop. */
  lemma CachedStep(fuel: nat, h: Heap, W1: Typing, W': Typing, ctx: Ctx, lc: LExpr, env: Env, c: Expr, k: nat)
    requires c.Comp? && lc.LComp? && |lc.specs| == |c.specs| && k < |c.specs|
    requires var r := CacheOvers(fuel, h, ctx, lc, k);
             r.out.LOk? && CachedRel(W', r.out.v, fuel, env, c, lc)
    requires var r, s := CacheOvers(fuel, h, ctx, lc, k), lc.specs[k];
             if s.LFor? && s.inv then
               c.specs[k].For? && var over := c.specs[k].over;
               Done(W1, W', Exec(fuel, r.h, ctx, s.over), Eval(true, fuel, Trim(env, over), over))
             else W' == W1 && HeapOk(r.h, W1)
    ensures var r := CacheOvers(fuel, h, ctx, lc, k + 1);
            && HeapOk(r.h, W') && !r.out.Panic?
            && (r.out.LOk? ==> CachedRel(W', r.out.v, fuel, env, c, lc))
            && (r.out.LFails? ==> EvalSpecs(true, fuel, env, c, 0).Fails?)
            && (r.out.LOutOfFuel? ==> EvalSpecs(true, fuel, env, c, 0).OutOfFuel?)
  {
    hide HeapOk, Exec, Eval, RelTs, RelV;
    var r, s := CacheOvers(fuel, h, ctx, lc, k), lc.specs[k];
    if s.LFor? && s.inv {
      var r2, v := Exec(fuel, r.h, ctx, s.over), Eval(true, fuel, Trim(env, c.specs[k].over), c.specs[k].over);
      if r2.out.LOk? {
        ElementsRel(W', r2.out.v, v.v);
        if Elements(r2.out.v).Some? {
          assert CachedOne(W', Some(Elements(r2.out.v).value), fuel, env, c.specs[k], s);
        }
      }
    } else {
      assert CachedOne(W', None, fuel, env, c.specs[k], s);
    }
  }

  lemma CompLengths(h: Heap, W: Typing, L: Link, ctx: Ctx, lc: LExpr, env: Env, c: Expr)
    requires c.Comp? && Ready(h, W, L, ctx, lc, env, c)
    ensures lc.LComp? && |lc.specs| == |c.specs|
  {
    hide HeapOk, CtxRel, FV;
  }

  /** The situation at the `k`-th specification, inside the iterations entered so far. */
  ghost predicate AtSpec(h: Heap, W: Typing, L: Link, ctx: Ctx, lc: LExpr, env: Env, c: Expr, fuel: nat,
                         cached: seq<Option<seq<LThunk>>>, k: nat, env0: Env, v0: View, bound: set<Name>)
  {
    && c.Comp? && lc.LComp? && |lc.specs| == |c.specs| && |cached| == |c.specs| && k <= |c.specs|
    && HeapOk(h, W) && CtxRel(W, L, ctx, env) && Safe(lc)
    && ResSpecs(c, lc, k, L.sc, L.v, v0, bound)
    && CachedRel(W, cached, fuel, env0, c, lc) && Chain(env, env0, bound)
  }

  lemma {:induction false} SimSpecs(fuel: nat, h: Heap, W: Typing, L: Link, ctx: Ctx, lc: LExpr, env: Env, c: Expr,
                                    cached: seq<Option<seq<LThunk>>>, k: nat, env0: Env, v0: View, bound: set<Name>)
    returns (W': Typing)
    requires AtSpec(h, W, L, ctx, lc, env, c, fuel, cached, k, env0, v0, bound)
    ensures DoneTs(W, W', ExecSpecs(fuel, h, ctx, lc, cached, k), EvalSpecs(true, fuel, env, c, k))
    decreases fuel, 1, c, 0, 2 * (|c.specs| - k) + 1, 1
  {
    if k == |c.specs| {
      W' := W;
      SimCollect(fuel, h, W, L, ctx, lc, env, c, cached, env0, v0, bound);
    } else if c.specs[k].Cond? {
      W' := SimCond(fuel, h, W, L, ctx, lc, env, c, cached, k, env0, v0, bound);
    } else {
      W' := SimFor(fuel, h, W, L, ctx, lc, env, c, cached, k, env0, v0, bound);
    }
  }

  lemma SimCollect(fuel: nat, h: Heap, W: Typing, L: Link, ctx: Ctx, lc: LExpr, env: Env, c: Expr,
                   cached: seq<Option<seq<LThunk>>>, env0: Env, v0: View, bound: set<Name>)
    requires c.Comp? && AtSpec(h, W, L, ctx, lc, env, c, fuel, cached, |c.specs|, env0, v0, bound)
    ensures DoneTs(W, W, ExecSpecs(fuel, h, ctx, lc, cached, |c.specs|), EvalSpecs(true, fuel, env, c, |c.specs|))
  {
    hide HeapOk, FV, CachedRel, RelT, RelO, Exec, Eval, CtxRel;
    assert ResUse(c.value, lc.value, lc.vshape, L.sc, L.v) && Safe(lc.value);
    if lc.value.LSlot? {
      ShortcutRes(c.value, lc.value.s, lc.vshape, L.sc, L.v);
      MkThunkRel(h, W, L, ctx, lc.value, env, c.value);
    } else {
      UseRel(W, L, ctx, env, lc.vshape);
      EnterUsingIs(h, ctx, lc.vshape);
      MkThunkRel(h, W, UseLink(L, lc.vshape), UseCtx(ctx, lc.vshape), lc.value, env, c.value);
    }
  }

  /** A bare element read outside its closure, when the closure passes the slot through unchanged. */
  lemma {:induction false} ShortcutRes(e: Expr, s: Slot, sh: Shape, sc: Scope, v: View)
    requires ResUse(e, LSlot(s), sh, sc, v) && ShortcutOk(sh, s)
    ensures Res(e, LSlot(s), sc, v)
    decreases e
  {
    if e.Local? { ShortcutRes(e.body, s, sh, sc, v); }
  }

  lemma {:induction false} SimCond(fuel: nat, h: Heap, W: Typing, L: Link, ctx: Ctx, lc: LExpr, env: Env, c: Expr,
                                   cached: seq<Option<seq<LThunk>>>, k: nat, env0: Env, v0: View, bound: set<Name>)
    returns (W': Typing)
    requires AtSpec(h, W, L, ctx, lc, env, c, fuel, cached, k, env0, v0, bound) && k < |c.specs| && c.specs[k].Cond?
    ensures DoneTs(W, W', ExecSpecs(fuel, h, ctx, lc, cached, k), EvalSpecs(true, fuel, env, c, k))
    decreases fuel, 1, c, 0, 2 * (|c.specs| - k) + 1, 0
  {
    hide HeapOk, FV, CachedRel, RelT, RelO, Exec, Eval, CtxRel, Res;
    assert Safe(lc.specs[k].cond);
    var W1 := SimEval(fuel, h, W, L, ctx, lc.specs[k].cond, env, c.specs[k].cond);
    W' := W1;
    var r := Exec(fuel, h, ctx, lc.specs[k].cond);
    if r.out.LOk? && r.out.v == LTriv(Bool(true)) {
      GrowCtx(W, W1, L, ctx, env);
      GrowCached(W, W1, cached, fuel, env0, c, lc);
      W' := SimSpecs(fuel, r.h, W1, L, ctx, lc, env, c, cached, k + 1, env0, v0, bound);
    }
  }

  lemma {:induction false} SimFor(fuel: nat, h: Heap, W: Typing, L: Link, ctx: Ctx, lc: LExpr, env: Env, c: Expr,
                                  cached: seq<Option<seq<LThunk>>>, k: nat, env0: Env, v0: View, bound: set<Name>)
    returns (W': Typing)
    requires AtSpec(h, W, L, ctx, lc, env, c, fuel, cached, k, env0, v0, bound) && k < |c.specs| && c.specs[k].For?
    ensures DoneTs(W, W', ExecSpecs(fuel, h, ctx, lc, cached, k), EvalSpecs(true, fuel, env, c, k))
    decreases fuel, 1, c, 0, 2 * (|c.specs| - k) + 1, 0
  {
    hide HeapOk, FV, RelTs, RelO, Exec, Eval, CtxRel, Res, RelV, ExecIter, EvalIter;
    var over, ls := c.specs[k].over, lc.specs[k];
    assert CachedOne(W, cached[k], fuel, env0, c.specs[k], ls);
    var v := Eval(true, fuel, Trim(env, over), over);
    if ls.inv {
      TrimChain(env, env0, bound, over);
      W' := SimIter(fuel, h, W, L, ctx, lc, env, c, cached, k, env0, v0, bound, cached[k].value, v.v.items);
    } else {
      assert Safe(ls.over);
      var L1 := TrimReady(h, W, L, ctx, ls.over, env, over);
      var W1 := SimEval(fuel, h, W, L1, ctx, ls.over, Trim(env, over), over);
      W' := W1;
      var r := Exec(fuel, h, ctx, ls.over);
      if r.out.LOk? {
        ElementsRel(W1, r.out.v, v.v);
        if v.v.VArr? {
          GrowCtx(W, W1, L, ctx, env);
          GrowCached(W, W1, cached, fuel, env0, c, lc);
          W' := SimIter(fuel, r.h, W1, L, ctx, lc, env, c, cached, k, env0, v0, bound, Elements(r.out.v).value, v.v.items);
        }
      }
    }
  }

  lemma {:induction false} SimIter(fuel: nat, h: Heap, W: Typing, L: Link, ctx: Ctx, lc: LExpr, env: Env, c: Expr,
                                   cached: seq<Option<seq<LThunk>>>, k: nat, env0: Env, v0: View, bound: set<Name>,
                                   litems: seq<LThunk>, items: seq<Thunk>)
    returns (W': Typing)
    requires AtSpec(h, W, L, ctx, lc, env, c, fuel, cached, k, env0, v0, bound) && k < |c.specs| && c.specs[k].For?
    requires lc.specs[k].LFor? && RelTs(W, litems, items)
    ensures DoneTs(W, W', ExecIter(fuel, h, ctx, lc, cached, k, litems), EvalIter(true, fuel, env, c, k, items))
    decreases fuel, 1, c, 0, 2 * (|c.specs| - k), |items|
  {
    hide HeapOk, FV, RelT, RelO, Exec, Eval, CtxRel, Res, ExecSpecs, EvalSpecs, CachedRel, EnterIteration;
    W' := W;
    if items != [] {
      var x, s := c.specs[k].x, lc.specs[k];
      var W1, L1 := EnterIter(h, W, L, ctx, env, x, s, litems[0], items[0]);
      var r := EnterIteration(h, ctx, s, litems[0]);
      var env1 := Iter(x, items[0], env);
      GrowCached(W, W1, cached, fuel, env0, c, lc);
      ChainGrows(env, env0, bound, bound + {Id(x)});
      var W2 := SimSpecs(fuel, r.h, W1, L1, r.out.v, lc, env1, c, cached, k + 1, env0, v0, bound + {Id(x)});
      W' := W2;
      var r2 := ExecSpecs(fuel, r.h, r.out.v, lc, cached, k + 1);
      if r2.out.LOk? {
        GrowCtx(W, W2, L, ctx, env);
        GrowCached(W, W2, cached, fuel, env0, c, lc);
        GrowTs(W, W2, litems, items);
        W' := SimIter(fuel, r2.h, W2, L, ctx, lc, env, c, cached, k, env0, v0, bound, litems[1..], items[1..]);
        GrowTs(W2, W', r2.out.v, EvalSpecs(true, fuel, env1, c, k + 1).v);
      }
    }
  }

  lemma {:induction false} SimComp(fuel: nat, h: Heap, W: Typing, L: Link, ctx: Ctx, le: LExpr, env: Env, e: Expr)
    returns (W': Typing)
    requires e.Comp? && Ready(h, W, L, ctx, le, env, e)
    ensures Done(W, W', Exec(fuel, h, ctx, le), Eval(true, fuel, env, e))
    decreases fuel, 1, e, 0, 2 * |e.specs| + 2, 0
  {
    hide HeapOk, FV, RelTs, RelO, CtxRel, ExecSpecs, EvalSpecs, CachedRel, CacheOvers, ResSpecs;
    var W1 := SimCache(fuel, h, W, L, ctx, le, env, e, |e.specs|);
    W' := W1;
    var r := CacheOvers(fuel, h, ctx, le, |e.specs|);
    if r.out.LOk? {
      GrowCtx(W, W1, L, ctx, env);
      W' := SimSpecs(fuel, r.h, W1, L, ctx, le, env, e, r.out.v, 0, env, L.v, {});
    }
  }
}
