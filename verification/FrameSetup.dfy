/** Contexts and frames: reading, packing and filling them keeps the correspondence, and never
    touches a cell that is not filled. */
module FrameSetup {
  import opened Options
  import opened Syntax
  import opened Resolution
  import opened ResolutionLaws
  import opened ByName
  import opened Packed
  import opened Correspondence

  // ---------------------------------------------------------------- reading slots

  lemma ReadRel(h: Heap, W: Typing, L: Link, ctx: Ctx, env: Env, s: Slot)
    requires HeapOk(h, W) && CtxRel(W, L, ctx, env) && IdOf(L.v, s).Some?
    ensures IdOf(L.v, s).value < |L.w|
    ensures ReadSlot(h, ctx, s).Some? && RelT(W, ReadSlot(h, ctx, s).value, L.w[IdOf(L.v, s).value])
  {
    match s
    case SCapture(i) => assert RelT(W, ctx.caps[i], L.w[L.v.caps[i]]);
    case SLocal(j) =>
      assert CellIs(W, ctx.frame, j, L.v.first + j, L.w);
      assert CellOk(h, W, ctx.frame, j, L.w[L.v.first + j]);
  }

  lemma PackRel(h: Heap, W: Typing, L: Link, ctx: Ctx, env: Env, sh: Shape)
    requires HeapOk(h, W) && CtxRel(W, L, ctx, env) && ShapeOk(sh, L.v)
    ensures PackCaptures(h, ctx, sh.captures).Some?
    ensures CapsRel(W, PackCaptures(h, ctx, sh.captures).value, Ids(sh, L.v), L.w)
  {
    forall i | 0 <= i < |sh.captures|
      ensures IdOf(L.v, sh.captures[i]).value < |L.w| && ReadSlot(h, ctx, sh.captures[i]).Some?
      ensures RelT(W, ReadSlot(h, ctx, sh.captures[i]).value, L.w[IdOf(L.v, sh.captures[i]).value])
    {
      ReadRel(h, W, L, ctx, env, sh.captures[i]);
    }
  }

  /** What `EnterUsing` yields when nothing is read from the frame. */
  ghost function UseCtx(ctx: Ctx, sh: Shape): Ctx
    requires CapsOnly(sh) && forall i :: 0 <= i < |sh.captures| ==> sh.captures[i].i < |ctx.caps|
  {
    if sh.captures == [] then ctx
    else Ctx(seq(|sh.captures|, i requires 0 <= i < |sh.captures| => ctx.caps[sh.captures[i].i]), ctx.frame, ctx.sup)
  }

  ghost predicate UseOk(sh: Shape, ncaps: nat) {
    CapsOnly(sh) && forall i :: 0 <= i < |sh.captures| ==> sh.captures[i].i < ncaps
  }

  /** A closure without locals packs the same captures whatever the frame holds so far. */
  lemma EnterUsingIs(h: Heap, ctx: Ctx, sh: Shape)
    requires UseOk(sh, |ctx.caps|)
    ensures EnterUsing(h, ctx, sh) == Some(UseCtx(ctx, sh))
  {
    if sh.captures != [] {
      forall i | 0 <= i < |sh.captures|
        ensures ReadSlot(h, ctx, sh.captures[i]) == Some(ctx.caps[sh.captures[i].i])
      {
        assert sh.captures[i].SCapture?;
      }
      assert PackCaptures(h, ctx, sh.captures).value == UseCtx(ctx, sh).caps;
    }
  }

  lemma UseOkOf(sh: Shape, v: View, ncaps: nat)
    requires CapsOnly(sh) && ShapeOk(sh, v) && |v.caps| <= ncaps
    ensures UseOk(sh, ncaps)
  {
    forall i | 0 <= i < |sh.captures| ensures sh.captures[i].i < ncaps {
      assert sh.captures[i].SCapture? && IdOf(v, sh.captures[i]).Some?;
    }
  }

  ghost function UseLink(L: Link, sh: Shape): Link
    requires ShapeOk(sh, L.v)
  {
    L.(v := UseView(L.v, sh))
  }

  lemma UseRel(W: Typing, L: Link, ctx: Ctx, env: Env, sh: Shape)
    requires CtxRel(W, L, ctx, env) && CapsOnly(sh) && ShapeOk(sh, L.v)
    ensures UseOk(sh, |ctx.caps|) && CtxRel(W, UseLink(L, sh), UseCtx(ctx, sh), env)
  {
    UseOkOf(sh, L.v, |ctx.caps|);
    var ids, c := Ids(sh, L.v), UseCtx(ctx, sh);
    forall i | 0 <= i < |ids| ensures ids[i] < |L.w| && RelT(W, c.caps[i], L.w[ids[i]]) {
      assert IdOf(L.v, sh.captures[i]).Some? && sh.captures[i].SCapture?;
      assert RelT(W, ctx.caps[sh.captures[i].i], L.w[L.v.caps[sh.captures[i].i]]);
    }
    forall j: nat | IdOf(UseView(L.v, sh), SLocal(j)).Some?
      ensures CellIs(W, c.frame, j, L.v.first + j, L.w)
    {
      assert IdOf(L.v, SLocal(j)).Some?;
    }
  }

  /** A value resolved in a closure of `ctx` becomes a thunk that stands for the by-name thunk. */
  lemma UseThunk(W: Typing, L: Link, ctx: Ctx, env: Env, e: Expr, le: LExpr, sh: Shape)
    requires CtxRel(W, L, ctx, env) && ResUse(e, le, sh, L.sc, L.v) && Safe(le)
    ensures UseOk(sh, |ctx.caps|) && RelT(W, LSusp(UseCtx(ctx, sh), le), Susp(env, e))
  {
    UseRel(W, L, ctx, env, sh);
    var L' := UseLink(L, sh);
    assert Res(e, le, L'.sc, L'.v) && CtxRel(W, L', UseCtx(ctx, sh), env);
  }

  // ---------------------------------------------------------------- scopes and environments

  lemma {:induction false} BindAllIs(sc: Scope, ns: seq<Name>)
    requires Distinct(ns)
    ensures forall i :: 0 <= i < |ns| ==> ns[i] in BindAll(sc, ns).ids && BindAll(sc, ns).ids[ns[i]] == sc.next + i
    ensures forall n :: n !in ns ==>
              (n in BindAll(sc, ns).ids <==> n in sc.ids) && (n in sc.ids ==> BindAll(sc, ns).ids[n] == sc.ids[n])
    decreases |ns|
  {
    if ns != [] { BindAllIs(sc, ns[..|ns| - 1]); }
  }

  /** Entering a group of binders: `ts[i]` is what `env'` binds `ns[i]` to. */
  lemma MatchPush(sc: Scope, w: seq<Thunk>, env: Env, ns: seq<Name>, ts: seq<Thunk>, env': Env)
    requires Match(sc, w, env) && Distinct(ns) && |ts| == |ns|
    requires forall i :: 0 <= i < |ns| ==> Lookup(env', ns[i]) == Some(ts[i])
    requires forall n :: n in sc.ids && n !in ns && n != Super ==> Lookup(env', n) == Lookup(env, n)
    requires Dollar !in ns && (Lookup(env', Dollar).Some? <==> Lookup(env, Dollar).Some?)
    ensures Match(BindAll(sc, ns), w + ts, env')
  {
    hide BindAll, Lookup, Distinct, NameMatches, Match;
    var sc' := BindAll(sc, ns);
    MatchSize(sc, w, env);
    forall n | n in sc'.ids && n != Super ensures NameMatches(sc', w + ts, env', n) {
      if i :| 0 <= i < |ns| && ns[i] == n { BoundMatches(sc, w, ns, ts, env', i); } else { KeptMatches(sc, w, env, ns, n, ts, env'); }
    }
    assert Dollar in sc'.ids <==> Dollar in sc.ids by { UnboundId(sc, ns, Dollar); }
    assert Dollar in sc.ids <==> Lookup(env, Dollar).Some? by { MatchDollar(sc, w, env); }
    EachMatches(sc', w + ts, env');
  }

  lemma MatchDollar(sc: Scope, w: seq<Thunk>, env: Env)
    requires Match(sc, w, env)
    ensures Dollar in sc.ids <==> Lookup(env, Dollar).Some?
  {
    hide Lookup;
  }

  lemma UnboundId(sc: Scope, ns: seq<Name>, n: Name)
    requires Distinct(ns) && n !in ns
    ensures n in BindAll(sc, ns).ids <==> n in sc.ids
    ensures n in sc.ids ==> BindAll(sc, ns).ids[n] == sc.ids[n]
  {
    hide BindAll, Distinct;
    BindAllIs(sc, ns);
  }

  lemma BoundMatches(sc: Scope, w: seq<Thunk>, ns: seq<Name>, ts: seq<Thunk>, env': Env, i: nat)
    requires |w| == sc.next && Distinct(ns) && |ts| == |ns| && i < |ns| && Lookup(env', ns[i]) == Some(ts[i])
    ensures NameMatches(BindAll(sc, ns), w + ts, env', ns[i])
  {
    hide BindAll, Distinct, Lookup;
    BindAllIs(sc, ns);
  }

  lemma KeptMatches(sc: Scope, w: seq<Thunk>, env: Env, ns: seq<Name>, n: Name, ts: seq<Thunk>, env': Env)
    requires Match(sc, w, env) && Distinct(ns) && n !in ns && n != Super && n in BindAll(sc, ns).ids
    requires n in sc.ids ==> Lookup(env', n) == Lookup(env, n)
    ensures NameMatches(BindAll(sc, ns), w + ts, env', n)
  {
    hide BindAll, Distinct, Lookup;
    UnboundId(sc, ns, n);
  }

  ghost predicate NameMatches(sc: Scope, w: seq<Thunk>, env: Env, n: Name) {
    n in sc.ids && sc.ids[n] < |w| && Lookup(env, n) == Some(w[sc.ids[n]])
  }

  lemma EachMatches(sc: Scope, w: seq<Thunk>, env: Env)
    requires |w| == sc.next && (Dollar in sc.ids <==> Lookup(env, Dollar).Some?)
    requires forall n :: n in sc.ids && n != Super ==> NameMatches(sc, w, env, n)
    ensures Match(sc, w, env)
  {
    hide Lookup;
    forall n | n in sc.ids && n != Super ensures sc.ids[n] < |w| && Lookup(env, n) == Some(w[sc.ids[n]]) {
      assert NameMatches(sc, w, env, n);
    }
  }

  lemma LastIndexDistinct(ns: seq<Name>, i: nat)
    requires Distinct(ns) && i < |ns|
    ensures LastIndex(ns, ns[i]) == Some(i)
  {
    assert ns[i] in ns;
  }

  ghost function RecThunks(binds: seq<Bind>, env: Env): (r: seq<Thunk>)
    ensures |r| == |binds| && forall i :: 0 <= i < |binds| ==> r[i] == Susp(env, binds[i].value)
  {
    seq(|binds|, i requires 0 <= i < |binds| => Susp(env, binds[i].value))
  }

  lemma MatchRec(sc: Scope, w: seq<Thunk>, env: Env, binds: seq<Bind>)
    requires Match(sc, w, env) && Distinct(Names(binds))
    ensures Match(BindAll(sc, Names(binds)), w + RecThunks(binds, Rec(binds, env)), Rec(binds, env))
  {
    var env', ns := Rec(binds, env), Names(binds);
    forall i | 0 <= i < |ns| ensures Lookup(env', ns[i]) == Some(RecThunks(binds, env')[i]) {
      LastIndexDistinct(ns, i);
    }
    MatchPush(sc, w, env, ns, RecThunks(binds, env'), env');
  }

  ghost function CallThunks(params: seq<Param>, args: seq<Thunk>, env: Env): (r: seq<Thunk>)
    requires CanCall(params, |args|)
    ensures |r| == |params|
    ensures forall i :: 0 <= i < |params| ==>
              r[i] == if i < |args| then args[i] else Susp(env, params[i].default.value)
  {
    seq(|params|, i requires 0 <= i < |params| => if i < |args| then args[i] else Susp(env, params[i].default.value))
  }

  lemma MatchCall(sc: Scope, w: seq<Thunk>, env: Env, params: seq<Param>, args: seq<Thunk>)
    requires Match(sc, w, env) && Distinct(ParamNames(params)) && CanCall(params, |args|)
    ensures var env' := Call(params, args, env);
            Match(BindAll(sc, ParamNames(params)), w + CallThunks(params, args, env'), env')
  {
    var env', ns := Call(params, args, env), ParamNames(params);
    forall i | 0 <= i < |ns| ensures Lookup(env', ns[i]) == Some(CallThunks(params, args, env')[i]) {
      LastIndexDistinct(ns, i);
    }
    MatchPush(sc, w, env, ns, CallThunks(params, args, env'), env');
  }

  lemma MatchIter(sc: Scope, w: seq<Thunk>, env: Env, x: string, item: Thunk)
    requires Match(sc, w, env)
    ensures Match(Bind1(sc, Id(x)), w + [item], Iter(x, item, env))
  {}

  /** What the frame of an object's members stands for: the object itself, then its locals. */
  ghost function MemberThunks(o: ObjVal, def: ObjBody, env': Env): seq<Thunk> {
    [Whole(o)] + RecThunks(def.locals, env')
  }

  /** A member's environment: the object's locals over the object with its locals left out. */
  lemma ObjNames(o: ObjVal, l: nat, def: ObjBody, env: Env)
    requires Distinct(Names(def.locals))
    ensures var env', ns := InObj(o, l, def, env), Names(def.locals);
            (forall i :: 0 <= i < |ns| ==> Lookup(env', ns[i]) == Some(RecThunks(def.locals, env')[i]))
            && forall n :: n !in ns ==> Lookup(env', n) == Lookup(InObj(o, l, ObjBody([], def.fields), env), n)
  {
    var ns := Names(def.locals);
    forall i | 0 <= i < |ns| ensures LastIndex(ns, ns[i]) == Some(i) {
      LastIndexDistinct(ns, i);
    }
  }

  lemma MatchSelf(sc: Scope, w: seq<Thunk>, o: ObjVal, l: nat, fields: seq<Bind>, env: Env)
    requires Match(sc, w, env)
    ensures Match(SelfScope(sc), w + [Whole(o)], InObj(o, l, ObjBody([], fields), env))
  {}

  lemma MatchObj(sc: Scope, w: seq<Thunk>, o: ObjVal, l: nat, def: ObjBody, env: Env)
    requires Match(sc, w, env) && Distinct(Names(def.locals))
    ensures var env' := InObj(o, l, def, env); Match(BodyScope(def, sc), w + MemberThunks(o, def, env'), env')
  {
    hide Lookup, Match, Distinct, BindAll, SelfScope;
    var env', bare := InObj(o, l, def, env), InObj(o, l, ObjBody([], def.fields), env);
    MatchSelf(sc, w, o, l, def.fields, env);
    ObjNames(o, l, def, env);
    MatchPush(SelfScope(sc), w + [Whole(o)], bare, Names(def.locals), RecThunks(def.locals, env'), env');
    assert w + [Whole(o)] + RecThunks(def.locals, env') == w + MemberThunks(o, def, env');
  }

  // ---------------------------------------------------------------- filling frames

  /** `h'` is `h` with the group `lbs` stored in cells `off..` of frame `ctx.frame`. */
  ghost predicate Filled(h: Heap, h': Heap, ctx: Ctx, lbs: seq<LBind>, off: nat) {
    var a := ctx.frame;
    && |h'| == |h| && a < |h| && |h'[a]| == |h[a]|
    && (forall b :: 0 <= b < |h| && b != a ==> h'[b] == h[b])
    && forall j :: 0 <= j < |h[a]| ==>
         if off <= j < off + |lbs| then
           UseOk(lbs[j - off].shape, |ctx.caps|)
           && h'[a][j] == Some(LSusp(UseCtx(ctx, lbs[j - off].shape), lbs[j - off].value))
         else h'[a][j] == h[a][j]
  }

  /** Set-up of a letrec group succeeds: no value needs a cell that is still empty. */
  lemma {:induction false} FillBindsIs(h: Heap, ctx: Ctx, lbs: seq<LBind>, off: nat)
    requires ctx.frame < |h| && off + |lbs| <= |h[ctx.frame]|
    requires forall i :: 0 <= i < |lbs| ==> lbs[i].slot == off + i && UseOk(lbs[i].shape, |ctx.caps|)
    requires forall j :: off <= j < off + |lbs| ==> h[ctx.frame][j].None?
    ensures FillBinds(h, ctx, lbs).Some? && Filled(h, FillBinds(h, ctx, lbs).value, ctx, lbs, off)
    decreases |lbs|
  {
    if lbs != [] {
      var init, b := lbs[..|lbs| - 1], lbs[|lbs| - 1];
      FillBindsIs(h, ctx, init, off);
      var h1 := FillBinds(h, ctx, init).value;
      EnterUsingIs(h1, ctx, b.shape);
      assert h1[ctx.frame][b.slot].None?;
    }
  }

  lemma {:induction false} FillArgsIs(h: Heap, a: nat, params: seq<LParam>, args: seq<LThunk>)
    requires |args| <= |params| && a < |h| && |params| <= |h[a]|
    requires forall i :: 0 <= i < |params| ==> params[i].slot == i && h[a][i].None?
    ensures FillArgs(h, a, params, args).Some?
    ensures var h' := FillArgs(h, a, params, args).value;
            |h'| == |h| && |h'[a]| == |h[a]| && (forall b :: 0 <= b < |h| && b != a ==> h'[b] == h[b])
            && forall j :: 0 <= j < |h[a]| ==> h'[a][j] == if j < |args| then Some(args[j]) else h[a][j]
    decreases |args|
  {
    if args != [] { FillArgsIs(h, a, params, args[..|args| - 1]); }
  }

  /** Allocating a frame whose cells already stand for what its type says. */
  lemma AllocOk(h: Heap, W: Typing, h': Heap, ty: FrameTy)
    requires HeapOk(h, W) && |h'| == |h| + 1 && forall b :: 0 <= b < |h| ==> h'[b] == h[b]
    requires forall j: nat, t :: TyHas(ty, j, t) ==> CellOk(h', W + [ty], |h|, j, t)
    ensures HeapOk(h', W + [ty])
  {
    var W' := W + [ty];
    forall a, j: nat, t | 0 <= a < |W'| && TyHas(W'[a], j, t) ensures CellOk(h', W', a, j, t) {
      if a < |W| {
        assert TyHas(W[a], j, t) && CellOk(h, W, a, j, t);
        GrowT(W, W', h[a][j].value, t);
      }
    }
  }

  lemma NewCtx(W: Typing, w: seq<Thunk>, v: View, caps: seq<LThunk>, sup: Option<SupThis>, sc': Scope, ts: seq<Thunk>,
               env': Env)
    requires CapsRel(W, caps, v.caps, w) && v.first == |w| && v.n == |ts| && !v.hole
    requires Match(sc', w + ts, env') && (v.sup ==> SupRel(W, sup, env'))
    ensures CtxRel(W + [Plain(ts)], Link(sc', w + ts, v), Ctx(caps, |W|, sup), env')
  {
    var W', w' := W + [Plain(ts)], w + ts;
    GrowCaps(W, W', caps, v.caps, w);
    forall i | 0 <= i < |v.caps| ensures v.caps[i] < |w'| && RelT(W', caps[i], w'[v.caps[i]]) {
      assert RelT(W', caps[i], w[v.caps[i]]);
    }
    forall j: nat | IdOf(v, SLocal(j)).Some? ensures CellIs(W', |W|, j, v.first + j, w') {
      assert w'[v.first + j] == ts[j];
    }
    if v.sup { GrowSup(W, W', sup, env'); }
  }

  lemma {:induction false} BindsUseOk(bs: seq<Bind>, lbs: seq<LBind>, sc: Scope, v: View, off: nat, ncaps: nat)
    requires ResBinds(bs, lbs, sc, v, off) && |v.caps| <= ncaps
    ensures forall i :: 0 <= i < |lbs| ==> lbs[i].slot == off + i && UseOk(lbs[i].shape, ncaps)
  {
    forall i | 0 <= i < |lbs| ensures lbs[i].slot == off + i && UseOk(lbs[i].shape, ncaps) {
      assert ResUse(bs[i].value, lbs[i].value, lbs[i].shape, sc, v);
      UseOkOf(lbs[i].shape, v, ncaps);
    }
  }

  // ---------------------------------------------------------------- entering each kind of frame

  /** Entering a `local` group. */
  lemma EnterRec(h: Heap, W: Typing, L: Link, ctx: Ctx, env: Env, binds: seq<Bind>, sh: Shape, lbs: seq<LBind>)
    returns (W': Typing, L': Link)
    requires HeapOk(h, W) && CtxRel(W, L, ctx, env) && ShapeOk(sh, L.v) && sh.n == |binds| && Distinct(Names(binds))
    requires ResBinds(binds, lbs, BindAll(L.sc, Names(binds)), EnterView(L.v, sh, L.sc.next), 0)
    requires forall i :: 0 <= i < |lbs| ==> SafeBind(lbs[i])
    ensures PackCaptures(h, ctx, sh.captures).Some?
    ensures var c := Ctx(PackCaptures(h, ctx, sh.captures).value, |h|, ctx.sup);
            var r := FillBinds(NewFrame(h, sh.n), c, lbs);
            r.Some? && W <= W' && HeapOk(r.value, W') && CtxRel(W', L', c, Rec(binds, env))
    ensures L'.sc == BindAll(L.sc, Names(binds)) && L'.v == EnterView(L.v, sh, L.sc.next)
  {
    PackRel(h, W, L, ctx, env, sh);
    var caps := PackCaptures(h, ctx, sh.captures).value;
    var c, env' := Ctx(caps, |h|, ctx.sup), Rec(binds, env);
    var ts, v, sc' := RecThunks(binds, env'), EnterView(L.v, sh, L.sc.next), BindAll(L.sc, Names(binds));
    MatchRec(L.sc, L.w, env, binds);
    assert Enclosing(env') == Enclosing(env);
    NewCtx(W, L.w, v, caps, ctx.sup, sc', ts, env');
    W', L' := W + [Plain(ts)], Link(sc', L.w + ts, v);
    BindsUseOk(binds, lbs, sc', v, 0, |caps|);
    var h0 := NewFrame(h, sh.n);
    FillBindsIs(h0, c, lbs, 0);
    var h1 := FillBinds(h0, c, lbs).value;
    forall j: nat, t | TyHas(Plain(ts), j, t) ensures CellOk(h1, W', |h|, j, t) {
      UseThunk(W', L', c, env', binds[j].value, lbs[j].value, lbs[j].shape);
    }
    AllocOk(h, W, h1, Plain(ts));
  }

  /** The cells of a call frame: the arguments, then the defaults of the parameters left over. */
  ghost predicate CallFrame(h: Heap, h2: Heap, c: Ctx, params: seq<LParam>, largs: seq<LThunk>)
    requires LCanCall(params, |largs|)
  {
    && c.frame == |h| && |h2| == |h| + 1 && (forall b :: 0 <= b < |h| ==> h2[b] == h[b])
    && |h2[|h|]| == |params|
    && forall j :: 0 <= j < |params| ==>
         if j < |largs| then h2[|h|][j] == Some(largs[j])
         else
           var d := params[j].default.value;
           UseOk(d.shape, |c.caps|) && h2[|h|][j] == Some(LSusp(UseCtx(c, d.shape), d.value))
  }

  lemma CallFill(h: Heap, c: Ctx, ps: seq<Param>, params: seq<LParam>, largs: seq<LThunk>, sc: Scope, v: View)
    requires c.frame == |h| && LCanCall(params, |largs|) && |ps| == |params| && |v.caps| <= |c.caps|
    requires forall i :: 0 <= i < |params| ==> ResParam(ps[i], params[i], sc, v, i)
    ensures var r := FillArgs(NewFrame(h, |params|), |h|, params, largs);
            r.Some?
            && var r2 := FillBinds(r.value, c, Defaults(params, |largs|));
            r2.Some? && CallFrame(h, r2.value, c, params, largs)
  {
    var h0 := NewFrame(h, |params|);
    forall i | 0 <= i < |params| ensures params[i].slot == i { assert ResParam(ps[i], params[i], sc, v, i); }
    FillArgsIs(h0, |h|, params, largs);
    var h1 := FillArgs(h0, |h|, params, largs).value;
    var ds := Defaults(params, |largs|);
    forall i | 0 <= i < |ds| ensures ds[i].slot == |largs| + i && UseOk(ds[i].shape, |c.caps|) {
      var p, lp := ps[|largs| + i], params[|largs| + i];
      assert ResParam(p, lp, sc, v, |largs| + i) && ds[i] == lp.default.value;
      assert ResUse(p.default.value, ds[i].value, ds[i].shape, sc, v);
      UseOkOf(ds[i].shape, v, |c.caps|);
    }
    FillBindsIs(h1, c, ds, |largs|);
    var h2 := FillBinds(h1, c, ds).value;
    forall j | 0 <= j < |params| && j >= |largs| ensures ds[j - |largs|] == params[j].default.value {}
  }

  /** Calling a function. */
  lemma EnterCall(h: Heap, W: Typing, L: Link, caps: seq<LThunk>, sup: Option<SupThis>, fn: LExpr, params: seq<Param>,
                  body: Expr, env: Env, largs: seq<LThunk>, args: seq<Thunk>)
    returns (W': Typing, L': Link)
    requires HeapOk(h, W) && FnRel(W, L, caps, sup, fn, params, body, env) && RelTs(W, largs, args)
    requires CanCall(params, |args|) && LCanCall(fn.params, |largs|)
    ensures var c := Ctx(caps, |h|, sup);
            var r := FillArgs(NewFrame(h, fn.shape.n), |h|, fn.params, largs);
            r.Some?
            && var r2 := FillBinds(r.value, c, Defaults(fn.params, |largs|));
            r2.Some? && W <= W' && HeapOk(r2.value, W') && CtxRel(W', L', c, Call(params, args, env))
    ensures L'.sc == BindAll(L.sc, ParamNames(params)) && L'.v == L.v
  {
    var c, env' := Ctx(caps, |h|, sup), Call(params, args, env);
    var ts, sc' := CallThunks(params, args, env'), BindAll(L.sc, ParamNames(params));
    MatchCall(L.sc, L.w, env, params, args);
    assert Enclosing(env') == Enclosing(env);
    NewCtx(W, L.w, L.v, caps, sup, sc', ts, env');
    W', L' := W + [Plain(ts)], Link(sc', L.w + ts, L.v);
    CallFill(h, c, params, fn.params, largs, sc', L.v);
    var h2 := FillBinds(FillArgs(NewFrame(h, fn.shape.n), |h|, fn.params, largs).value, c, Defaults(fn.params, |largs|)).value;
    forall j: nat, t | TyHas(Plain(ts), j, t) ensures CellOk(h2, W', |h|, j, t) {
      CallCell(h2, W', L', c, fn, params, args, largs, env, j, W);
    }
    AllocOk(h, W, h2, Plain(ts));
  }

  lemma CallCell(h2: Heap, W': Typing, L': Link, c: Ctx, fn: LExpr, params: seq<Param>, args: seq<Thunk>,
                 largs: seq<LThunk>, env: Env, j: nat, W: Typing)
    requires fn.LFn? && |fn.params| == |params| && W <= W' && RelTs(W, largs, args)
    requires CanCall(params, |args|) && LCanCall(fn.params, |largs|) && j < |params| && Safe(fn)
    requires CtxRel(W', L', c, Call(params, args, env)) && ResParam(params[j], fn.params[j], L'.sc, L'.v, j)
    requires c.frame < |h2| && j < |h2[c.frame]|
    requires if j < |largs| then h2[c.frame][j] == Some(largs[j])
             else var d := fn.params[j].default.value;
                  UseOk(d.shape, |c.caps|) && h2[c.frame][j] == Some(LSusp(UseCtx(c, d.shape), d.value))
    ensures CellOk(h2, W', c.frame, j, CallThunks(params, args, Call(params, args, env))[j])
  {
    if j < |largs| {
      GrowT(W, W', largs[j], args[j]);
    } else {
      var d := fn.params[j].default.value;
      assert SafeBind(d);
      UseThunk(W', L', c, Call(params, args, env), params[j].default.value, d.value, d.shape);
    }
  }

  /** One iteration of a comprehension. */
  lemma HeapSize(h: Heap, W: Typing)
    requires HeapOk(h, W)
    ensures |h| == |W|
  {
    hide CellOk;
  }

  /** The context of one iteration, whose frame holds the item. */
  lemma IterCtx(W: Typing, L: Link, ctx: Ctx, env: Env, x: string, s: LSpec, caps: seq<LThunk>, item: Thunk)
    requires CtxRel(W, L, ctx, env) && s.LFor? && s.shape.n == 1 && ShapeOk(s.shape, L.v) && CapsRel(W, caps, Ids(s.shape, L.v), L.w)
    ensures var v := EnterView(L.v, s.shape, L.sc.next);
            CtxRel(W + [Plain([item])], Link(Bind1(L.sc, Id(x)), L.w + [item], v), Ctx(caps, |W|, ctx.sup), Iter(x, item, env))
  {
    hide RelL, RelO, RelT, CapsRel, ShapeOk;
    MatchIter(L.sc, L.w, env, x, item);
    assert Enclosing(Iter(x, item, env)) == Enclosing(env);
    NewCtx(W, L.w, EnterView(L.v, s.shape, L.sc.next), caps, ctx.sup, Bind1(L.sc, Id(x)), [item], Iter(x, item, env));
  }

  lemma EnterIter(h: Heap, W: Typing, L: Link, ctx: Ctx, env: Env, x: string, s: LSpec, litem: LThunk, item: Thunk)
    returns (W': Typing, L': Link)
    requires HeapOk(h, W) && CtxRel(W, L, ctx, env) && s.LFor? && ShapeOk(s.shape, L.v)
    requires s.slot == 0 && s.shape.n == 1 && RelT(W, litem, item)
    ensures var r := EnterIteration(h, ctx, s, litem);
            r.out.LOk? && W <= W' && HeapOk(r.h, W') && CtxRel(W', L', r.out.v, Iter(x, item, env))
    ensures L'.sc == Bind1(L.sc, Id(x)) && L'.v == EnterView(L.v, s.shape, L.sc.next) && L'.w == L.w + [item]
  {
    PackRel(h, W, L, ctx, env, s.shape);
    hide RelL, RelO, RelT, CapsRel, CtxRel, Match, PackCaptures;
    var ts := [item];
    IterCtx(W, L, ctx, env, x, s, PackCaptures(h, ctx, s.shape.captures).value, item);
    HeapSize(h, W);
    W', L' := W + [Plain(ts)], Link(Bind1(L.sc, Id(x)), L.w + ts, EnterView(L.v, s.shape, L.sc.next));
    var h1 := EnterIteration(h, ctx, s, litem).h;
    forall j: nat, t | TyHas(Plain(ts), j, t) ensures CellOk(h1, W', |h|, j, t) {
      GrowT(W, W', litem, item);
    }
    AllocOk(h, W, h1, Plain(ts));
  }

  /** An object layer built once stands for the layer inside whatever object it ends up in. */
  lemma SharedCtx(W: Typing, L: Link, ctx: Ctx, def: ObjBody, env: Env, o: ObjVal, l: nat)
    returns (L': Link)
    requires Match(L.sc, L.w, env) && Distinct(Names(def.locals)) && CapsRel(W, ctx.caps, L.v.caps, L.w)
    requires L.v == View(L.v.caps, L.sc.next, 1 + |def.locals|, true, false)
    requires ctx.frame < |W| && W[ctx.frame] == Shared(env, def)
    ensures CtxRel(W, L', ctx, InObj(o, l, def, env)) && L'.sc == BodyScope(def, L.sc) && L'.v == L.v
  {
    hide RelT, Match, Lookup, BindAll, SelfScope;
    var env' := InObj(o, l, def, env);
    var ts := MemberThunks(o, def, env');
    MatchObj(L.sc, L.w, o, l, def, env);
    MatchSize(L.sc, L.w, env);
    L' := Link(BodyScope(def, L.sc), L.w + ts, L.v);
    CapsPush(W, ctx.caps, L.v.caps, L.w, ts);
    forall j: nat | IdOf(L.v, SLocal(j)).Some? ensures CellIs(W, ctx.frame, j, L.v.first + j, L.w + ts) {
      assert (L.w + ts)[L.v.first + j] == RecThunks(def.locals, env')[j - 1];
    }
  }

  lemma MatchSize(sc: Scope, w: seq<Thunk>, env: Env)
    requires Match(sc, w, env)
    ensures |w| == sc.next
  {
    hide Lookup;
  }

  lemma CapsPush(W: Typing, caps: seq<LThunk>, ids: seq<nat>, w: seq<Thunk>, ts: seq<Thunk>)
    requires CapsRel(W, caps, ids, w)
    ensures CapsRel(W, caps, ids, w + ts)
  {
    hide RelT;
  }

  lemma BuildEarly(h: Heap, W: Typing, L: Link, ctx: Ctx, env: Env, def: ObjBody, ldef: LObjBody)
    returns (W': Typing)
    requires HeapOk(h, W) && CtxRel(W, L, ctx, env) && ResObj(def, ldef, L.sc, L.v) && SafeObj(ldef) && !ldef.late
    ensures var r := BuildLayer(h, ctx, ldef);
            r.out.LOk? && W <= W' && HeapOk(r.h, W') && RelL(W', r.out.v, Layer(env, def, None))
  {
    PackRel(h, W, L, ctx, env, ldef.shape);
    var caps := PackCaptures(h, ctx, ldef.shape.captures).value;
    var c, v, h0 := Ctx(caps, |h|, ctx.sup), ObjView(L.v, ldef, L.sc.next), NewFrame(h, ldef.shape.n);
    BindsUseOk(def.locals, ldef.locals, BodyScope(def, L.sc), v, 1, |caps|);
    FillBindsIs(h0, c, ldef.locals, 1);
    var h1 := FillBinds(h0, c, ldef.locals).value;
    W' := W + [Shared(env, def)];
    GrowCaps(W, W', caps, v.caps, L.w);
    var L1 := L.(v := v);
    forall j: nat, t | TyHas(Shared(env, def), j, t) ensures CellOk(h1, W', |h|, j, t) {
      var L' := SharedCtx(W', L1, c, def, env, t.env.obj, t.env.level);
      assert SafeBind(ldef.locals[j - 1]);
      UseThunk(W', L', c, t.env, def.locals[j - 1].value, ldef.locals[j - 1].value, ldef.locals[j - 1].shape);
    }
    AllocOk(h, W, h1, Shared(env, def));
    assert Match(L1.sc, L1.w, env) && ResBody(def, ldef, L1.sc, L1.v) && CapsRel(W', caps, L1.v.caps, L1.w);
  }

  /** Building an object layer. */
  lemma BuildRel(h: Heap, W: Typing, L: Link, ctx: Ctx, env: Env, def: ObjBody, ldef: LObjBody)
    returns (W': Typing)
    requires HeapOk(h, W) && CtxRel(W, L, ctx, env) && ResObj(def, ldef, L.sc, L.v) && SafeObj(ldef)
    ensures var r := BuildLayer(h, ctx, ldef);
            r.out.LOk? && W <= W' && HeapOk(r.h, W') && RelL(W', r.out.v, Layer(env, def, None))
  {
    if ldef.late {
      PackRel(h, W, L, ctx, env, ldef.shape);
      W' := W;
      var caps, L1 := PackCaptures(h, ctx, ldef.shape.captures).value, L.(v := ObjView(L.v, ldef, L.sc.next));
      assert Match(L1.sc, L1.w, env) && ResBody(def, ldef, L1.sc, L1.v) && CapsRel(W, caps, L1.v.caps, L1.w);
    } else {
      W' := BuildEarly(h, W, L, ctx, env, def, ldef);
    }
  }

  /** Context of a member of layer `l`: the object a late bound layer sees is the whole of `o`, or the
      object it is pinned to. */
  lemma MemberRel(h: Heap, W: Typing, lo: LObjVal, o: ObjVal, l: nat)
    returns (W': Typing, L': Link, sc: Scope)
    requires HeapOk(h, W) && RelO(W, lo, o) && l < |o.layers|
    ensures var r, d := MemberCtx(h, lo, l), o.layers[l].def;
            r.out.LOk? && W <= W' && HeapOk(r.h, W') && CtxRel(W', L', r.out.v, MemberEnv(o, l))
            && L'.sc == BodyScope(d, sc) && ResBody(d, lo.layers[l].def, sc, L'.v)
  {
    var ll, env, def := lo.layers[l], o.layers[l].env, o.layers[l].def;
    assert RelL(W, ll, o.layers[l]);
    var L: Link :|
      && Match(L.sc, L.w, env)
      && L.v == View(L.v.caps, L.sc.next, ll.def.shape.n, ll.Early?, ll.Late?)
      && ResBody(def, ll.def, L.sc, L.v)
      && CapsRel(W, if ll.Late? then ll.caps else ll.ctx.caps, L.v.caps, L.w);
    sc := L.sc;
    if ll.Early? {
      W' := W;
      L' := SharedCtx(W, L, ll.ctx, def, env, Owner(o, l).obj, Owner(o, l).level);
    } else {
      W', L' := MemberLate(h, W, L, lo, o, l);
    }
  }

  lemma MemberLate(h: Heap, W: Typing, L: Link, lo: LObjVal, o: ObjVal, l: nat)
    returns (W': Typing, L': Link)
    requires HeapOk(h, W) && RelO(W, lo, o) && l < |o.layers| && l < |lo.layers| && lo.layers[l].Late?
    requires var ll, d := lo.layers[l], o.layers[l].def;
             SafeObj(ll.def) && ll.def.shape.n == 1 + |d.locals| && Distinct(Names(d.locals))
             && Match(L.sc, L.w, o.layers[l].env) && L.v == View(L.v.caps, L.sc.next, ll.def.shape.n, false, true)
             && ResBody(d, ll.def, L.sc, L.v) && CapsRel(W, ll.caps, L.v.caps, L.w)
    ensures var r, d := MemberCtx(h, lo, l), o.layers[l].def;
            r.out.LOk? && W <= W' && HeapOk(r.h, W') && CtxRel(W', L', r.out.v, MemberEnv(o, l))
            && L'.sc == BodyScope(d, L.sc) && L'.v == L.v
  {
    hide RelO, RelL, CapsRel, CtxRel, Match, FillBinds, ResBody, SafeObj, HeapOk, Owner, LOwner, Distinct, BodyScope, SetCell;
    OwnerRel(W, lo, o, l);
    var h2;
    W', L', h2 := LateFrame(h, W, L, LOwner(lo, l), Owner(o, l), lo.layers[l].caps, o.layers[l].def, lo.layers[l].def, o.layers[l].env);
  }

  /** The frame of a late bound layer, for the object its members see. */
  lemma LateFrame(h: Heap, W: Typing, L: Link, lown: SupThis, own: SuperOf, caps: seq<LThunk>, def: ObjBody, ldef: LObjBody, env: Env)
    returns (W': Typing, L': Link, h2: Heap)
    requires HeapOk(h, W) && RelO(W, lown.obj, own.obj) && lown.level == own.level
    requires SafeObj(ldef) && ldef.shape.n == 1 + |def.locals| && Distinct(Names(def.locals))
    requires Match(L.sc, L.w, env) && L.v == View(L.v.caps, L.sc.next, ldef.shape.n, false, true)
    requires ResBody(def, ldef, L.sc, L.v) && CapsRel(W, caps, L.v.caps, L.w)
    ensures var c, r := Ctx(caps, |h|, Some(lown)), SetCell(NewFrame(h, ldef.shape.n), |h|, 0, LWhole(lown.obj));
            && r.Some? && FillBinds(r.value, c, ldef.locals) == Some(h2) && W <= W' && HeapOk(h2, W')
            && CtxRel(W', L', c, InObj(own.obj, own.level, def, env)) && L'.sc == BodyScope(def, L.sc) && L'.v == L.v
  {
    hide RelO, RelL, CapsRel, CtxRel, Match, FillBinds, Res, Safe, HeapOk, CellOk, SelfScope, BindAll, NewFrame;
    var c, env' := Ctx(caps, |h|, Some(lown)), InObj(own.obj, own.level, def, env);
    var ts := MemberThunks(own.obj, def, env');
    L' := LateCtx(h, W, L, lown, own, caps, def, ldef, env);
    W' := W + [Plain(ts)];
    CapsEnough(W, caps, L.v.caps, L.w);
    h2 := LateFill(h, c, lown.obj, def.locals, ldef.locals, L'.sc, L.v);
    forall j: nat, t | TyHas(Plain(ts), j, t) ensures CellOk(h2, W', |h|, j, t) {
      LateCell(h2, W', L', c, lown.obj, own.obj, def, ldef.locals, env', j, W);
    }
    AllocOk(h, W, h2, Plain(ts));
  }

  lemma CapsEnough(W: Typing, caps: seq<LThunk>, ids: seq<nat>, w: seq<Thunk>)
    requires CapsRel(W, caps, ids, w)
    ensures |ids| <= |caps|
  {
    hide RelT;
  }

  /** The context of a late bound object's members. */
  lemma LateCtx(h: Heap, W: Typing, L: Link, lown: SupThis, own: SuperOf, caps: seq<LThunk>, def: ObjBody, ldef: LObjBody, env: Env)
    returns (L': Link)
    requires HeapOk(h, W) && RelO(W, lown.obj, own.obj) && lown.level == own.level && Distinct(Names(def.locals))
    requires Match(L.sc, L.w, env) && L.v == View(L.v.caps, L.sc.next, 1 + |def.locals|, false, true)
    requires CapsRel(W, caps, L.v.caps, L.w)
    ensures var c, env' := Ctx(caps, |h|, Some(lown)), InObj(own.obj, own.level, def, env);
            CtxRel(W + [Plain(MemberThunks(own.obj, def, env'))], L', c, env')
    ensures L'.sc == BodyScope(def, L.sc) && L'.v == L.v
  {
    hide RelO, RelL, CapsRel, CtxRel, Match, CellOk, SelfScope, BindAll;
    var env' := InObj(own.obj, own.level, def, env);
    var ts := MemberThunks(own.obj, def, env');
    MatchObj(L.sc, L.w, own.obj, own.level, def, env);
    MatchSize(L.sc, L.w, env);
    NewCtx(W, L.w, L.v, caps, Some(lown), BodyScope(def, L.sc), ts, env');
    L' := Link(BodyScope(def, L.sc), L.w + ts, L.v);
  }

  lemma OwnerRel(W: Typing, lo: LObjVal, o: ObjVal, l: nat)
    requires RelO(W, lo, o) && l < |o.layers| && lo.layers[l].Late?
    ensures LOwner(lo, l).level == Owner(o, l).level && RelO(W, LOwner(lo, l).obj, Owner(o, l).obj)
  {
    assert RelL(W, lo.layers[l], o.layers[l]);
    PinKept(W, lo.layers[l], o.layers[l]);
  }

  lemma PinKept(W: Typing, ll: LLayer, l: Layer)
    requires RelL(W, ll, l) && ll.Late?
    ensures PinRel(W, ll.pin, l.pin)
  {}

  lemma LateCell(h2: Heap, W': Typing, L': Link, c: Ctx, lo: LObjVal, o: ObjVal, def: ObjBody,
                 lbs: seq<LBind>, env': Env, j: nat, W: Typing)
    requires W <= W' && RelO(W, lo, o)
    requires CtxRel(W', L', c, env') && ResBinds(def.locals, lbs, L'.sc, L'.v, 1) && j < 1 + |lbs|
    requires forall i :: 0 <= i < |lbs| ==> SafeBind(lbs[i])
    requires c.frame < |h2| && j < |h2[c.frame]|
    requires if j == 0 then h2[c.frame][0] == Some(LWhole(lo))
             else UseOk(lbs[j - 1].shape, |c.caps|)
                  && h2[c.frame][j] == Some(LSusp(UseCtx(c, lbs[j - 1].shape), lbs[j - 1].value))
    ensures CellOk(h2, W', c.frame, j, MemberThunks(o, def, env')[j])
  {
    hide RelO, CtxRel, Match, Res, Safe, HeapOk;
    if j == 0 {
      GrowO(W, W', lo, o);
    } else {
      var b, lb := def.locals[j - 1], lbs[j - 1];
      assert SafeBind(lb) && ResUse(b.value, lb.value, lb.shape, L'.sc, L'.v);
      UseThunk(W', L', c, env', b.value, lb.value, lb.shape);
    }
  }

  /** The cells of a late bound object's frame: the object, then its locals. */
  lemma LateFill(h: Heap, c: Ctx, lo: LObjVal, bs: seq<Bind>, lbs: seq<LBind>, sc: Scope, v: View) returns (h2: Heap)
    requires c.frame == |h| && ResBinds(bs, lbs, sc, v, 1) && |v.caps| <= |c.caps|
    ensures var r := SetCell(NewFrame(h, 1 + |lbs|), |h|, 0, LWhole(lo));
            r.Some? && FillBinds(r.value, c, lbs) == Some(h2)
    ensures |h2| == |h| + 1 && (forall b :: 0 <= b < |h| ==> h2[b] == h[b])
    ensures |h2[|h|]| == 1 + |lbs| && h2[|h|][0] == Some(LWhole(lo))
    ensures forall j :: 1 <= j <= |lbs| ==>
              UseOk(lbs[j - 1].shape, |c.caps|)
              && h2[|h|][j] == Some(LSusp(UseCtx(c, lbs[j - 1].shape), lbs[j - 1].value))
  {
    BindsUseOk(bs, lbs, sc, v, 1, |c.caps|);
    var h1 := SetCell(NewFrame(h, 1 + |lbs|), |h|, 0, LWhole(lo)).value;
    FillBindsIs(h1, c, lbs, 1);
    h2 := FillBinds(h1, c, lbs).value;
  }
}
