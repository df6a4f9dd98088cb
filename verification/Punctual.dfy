/** Code whose comprehensions evaluate at most their first source ahead of the loop. Evaluating that one
    early is evaluating it on time, so such code never stops on a source the loop would not have
    reached. */
module Punctual {
  import opened Options
  import opened Syntax
  import opened Packed

  /** No comprehension in `e` hoists a source other than its first. */
  ghost predicate OnTime(e: LExpr)
    decreases e, 1
  {
    match e
    case LNode(_, kids) => forall i :: 0 <= i < |kids| ==> OnTime(kids[i])
    case LArr(_, items) => forall i :: 0 <= i < |items| ==> OnTime(items[i])
    case LLocal(_, binds, body) => (forall i :: 0 <= i < |binds| ==> OnTimeBind(binds[i])) && OnTime(body)
    case LFn(params, _, body) =>
      (forall i :: 0 <= i < |params| && params[i].default.Some? ==> OnTimeBind(params[i].default.value)) && OnTime(body)
    case LObj(def) => OnTimeObj(def)
    case LExtend(base, def) => OnTime(base) && OnTimeObj(def)
    case LComp(_, value, specs) => OnTime(value) && forall i :: 0 <= i < |specs| ==> OnTimeSpec(specs[i], i)
    case _ => true
  }

  ghost predicate OnTimeSpec(s: LSpec, i: nat)
    decreases s, 0
  {
    match s
    case LFor(_, _, over, inv) => OnTime(over) && (inv ==> i == 0)
    case LCond(cond) => OnTime(cond)
  }

  ghost predicate OnTimeBind(b: LBind)
    decreases b, 0
  {
    OnTime(b.value)
  }

  ghost predicate OnTimeObj(def: LObjBody)
    decreases def, 0
  {
    && (forall i :: 0 <= i < |def.locals| ==> OnTimeBind(def.locals[i]))
    && (forall i :: 0 <= i < |def.fields| ==> OnTime(def.fields[i].value))
  }

  // ---------------------------------------------------------------- everything that can run is on time

  ghost predicate ThunkOk(t: LThunk)
    decreases t, 1
  {
    match t
    case LSusp(ctx, e) => CtxOk(ctx) && OnTime(e)
    case LWhole(o) => ObjOk(o)
  }

  ghost predicate ThunksOk(ts: seq<LThunk>)
    decreases ts, 0
  {
    forall i :: 0 <= i < |ts| ==> ThunkOk(ts[i])
  }

  ghost predicate CtxOk(c: Ctx)
    decreases c, 1
  {
    ThunksOk(c.caps) && SupOk(c.sup)
  }

  ghost predicate SupOk(s: Option<SupThis>)
    decreases s, 0
  {
    s.Some? ==> ObjOk(s.value.obj)
  }

  ghost predicate ObjOk(o: LObjVal)
    decreases o, 1
  {
    forall i :: 0 <= i < |o.layers| ==> LayerOk(o.layers[i])
  }

  ghost predicate LayerOk(l: LLayer)
    decreases l, 1
  {
    OnTimeObj(l.def) && (if l.Late? then ThunksOk(l.caps) && SupOk(l.pin) else CtxOk(l.ctx))
  }

  ghost predicate ValOk(v: LVal) {
    match v
    case LClosure(caps, sup, fn) => ThunksOk(caps) && SupOk(sup) && OnTime(fn)
    case LArrV(items) => ThunksOk(items)
    case LObjV(o) => ObjOk(o)
    case _ => true
  }

  ghost predicate HeapOk(h: Heap) {
    forall a, j :: 0 <= a < |h| && 0 <= j < |h[a]| && h[a][j].Some? ==> ThunkOk(h[a][j].value)
  }

  /** A run that leaves the heap in order and does not stop on a hoisted source. */
  ghost predicate Fine(r: Run<LVal>) {
    HeapOk(r.h) && !r.out.Hoisted? && (r.out.LOk? ==> ValOk(r.out.v))
  }

  ghost predicate FineTs(r: Run<seq<LThunk>>) {
    HeapOk(r.h) && !r.out.Hoisted? && (r.out.LOk? ==> ThunksOk(r.out.v))
  }

  lemma ReadOk(h: Heap, c: Ctx, s: Slot)
    requires HeapOk(h) && CtxOk(c)
    ensures ReadSlot(h, c, s).Some? ==> ThunkOk(ReadSlot(h, c, s).value)
  {
    hide ThunkOk;
  }

  lemma PackOk(h: Heap, c: Ctx, srcs: seq<Slot>)
    requires HeapOk(h) && CtxOk(c)
    ensures PackCaptures(h, c, srcs).Some? ==> ThunksOk(PackCaptures(h, c, srcs).value)
  {
    hide CtxOk, HeapOk, ThunkOk;
    var r := PackCaptures(h, c, srcs);
    if r.Some? {
      forall i | 0 <= i < |srcs| ensures ThunkOk(r.value[i]) { ReadOk(h, c, srcs[i]); }
    }
  }

  lemma EnterOk(h: Heap, c: Ctx, sh: Shape)
    requires HeapOk(h) && CtxOk(c)
    ensures EnterUsing(h, c, sh).Some? ==> CtxOk(EnterUsing(h, c, sh).value)
  {
    hide HeapOk, ThunksOk, SupOk;
    PackOk(h, c, sh.captures);
  }

  lemma NewOk(h: Heap, n: nat)
    requires HeapOk(h)
    ensures HeapOk(NewFrame(h, n))
  {}

  lemma SetOk(h: Heap, a: nat, slot: nat, t: LThunk)
    requires HeapOk(h) && ThunkOk(t)
    ensures SetCell(h, a, slot, t).Some? ==> HeapOk(SetCell(h, a, slot, t).value)
  {
    hide ThunkOk;
  }

  lemma {:induction false} FillOk(h: Heap, c: Ctx, lbs: seq<LBind>)
    requires HeapOk(h) && CtxOk(c) && forall i :: 0 <= i < |lbs| ==> OnTimeBind(lbs[i])
    ensures FillBinds(h, c, lbs).Some? ==> HeapOk(FillBinds(h, c, lbs).value)
    decreases |lbs|
  {
    hide HeapOk, CtxOk, OnTime;
    if lbs != [] {
      FillOk(h, c, lbs[..|lbs| - 1]);
      var r, b := FillBinds(h, c, lbs[..|lbs| - 1]), lbs[|lbs| - 1];
      if r.Some? {
        EnterOk(r.value, c, b.shape);
        var d := EnterUsing(r.value, c, b.shape);
        if d.Some? {
          assert OnTimeBind(b);
          SetOk(r.value, c.frame, b.slot, LSusp(d.value, b.value));
        }
      }
    }
  }

  lemma {:induction false} ArgsOk(h: Heap, a: nat, params: seq<LParam>, args: seq<LThunk>)
    requires HeapOk(h) && ThunksOk(args) && |args| <= |params|
    ensures FillArgs(h, a, params, args).Some? ==> HeapOk(FillArgs(h, a, params, args).value)
    decreases |args|
  {
    hide HeapOk, ThunkOk;
    if args != [] {
      ArgsOk(h, a, params, args[..|args| - 1]);
      var r := FillArgs(h, a, params, args[..|args| - 1]);
      if r.Some? { SetOk(r.value, a, params[|args| - 1].slot, args[|args| - 1]); }
    }
  }

  lemma MkThunksOk(h: Heap, c: Ctx, es: seq<LExpr>)
    requires HeapOk(h) && CtxOk(c) && forall i :: 0 <= i < |es| ==> OnTime(es[i])
    ensures MkLThunks(h, c, es).Some? ==> ThunksOk(MkLThunks(h, c, es).value)
  {
    hide HeapOk, CtxOk, OnTime;
    var r := MkLThunks(h, c, es);
    if r.Some? {
      forall i | 0 <= i < |es| ensures ThunkOk(r.value[i]) {
        if es[i].LSlot? { ReadOk(h, c, es[i].s); }
      }
    }
  }

  lemma BuildOk(h: Heap, c: Ctx, def: LObjBody)
    requires HeapOk(h) && CtxOk(c) && OnTimeObj(def)
    ensures HeapOk(BuildLayer(h, c, def).h) && (BuildLayer(h, c, def).out.LOk? ==> LayerOk(BuildLayer(h, c, def).out.v))
    ensures !BuildLayer(h, c, def).out.Hoisted?
  {
    assert SupOk(None);
    hide HeapOk, ThunksOk, SupOk, OnTimeBind, OnTime;
    PackOk(h, c, def.shape.captures);
    var caps := PackCaptures(h, c, def.shape.captures);
    if caps.Some? {
      NewOk(h, def.shape.n);
      FillOk(NewFrame(h, def.shape.n), Ctx(caps.value, |h|, c.sup), def.locals);
    }
  }

  lemma OwnerOk(o: LObjVal, l: nat)
    requires ObjOk(o) && l < |o.layers|
    ensures ObjOk(LOwner(o, l).obj)
  {
    assert LayerOk(o.layers[l]);
    if o.layers[l].Late? { PinOk(o.layers[l]); }
  }

  lemma PinOk(l: LLayer)
    requires LayerOk(l) && l.Late?
    ensures l.pin.Some? ==> ObjOk(l.pin.value.obj)
  {
    assert SupOk(l.pin);
  }

  lemma StandaloneOk(s: SupThis)
    requires ObjOk(s.obj)
    ensures !LStandalone(s).Hoisted? && (LStandalone(s).LOk? ==> ValOk(LStandalone(s).v))
  {
    if 0 < s.level <= |s.obj.layers| {
      forall i | 0 <= i < s.level ensures LayerOk(LBelow(s.obj, s.level).layers[i]) {
        assert LayerOk(s.obj.layers[i]);
        OwnerOk(s.obj, i);
      }
    }
  }

  lemma MemberOk(h: Heap, o: LObjVal, l: nat)
    requires HeapOk(h) && ObjOk(o) && l < |o.layers|
    ensures HeapOk(MemberCtx(h, o, l).h) && (MemberCtx(h, o, l).out.LOk? ==> CtxOk(MemberCtx(h, o, l).out.v))
  {
    assert LayerOk(o.layers[l]);
    if o.layers[l].Late? {
      var caps, def := o.layers[l].caps, o.layers[l].def;
      var own := LOwner(o, l);
      var c := Ctx(caps, |h|, Some(own));
      OwnerOk(o, l);
      assert ThunkOk(LWhole(own.obj)) && CtxOk(c);
      hide HeapOk, ThunksOk, ObjOk, CtxOk, OnTimeBind, ThunkOk;
      NewOk(h, def.shape.n);
      SetOk(NewFrame(h, def.shape.n), |h|, 0, LWhole(own.obj));
      var r := SetCell(NewFrame(h, def.shape.n), |h|, 0, LWhole(own.obj));
      if r.Some? { FillOk(r.value, c, def.locals); }
    }
  }

  // ---------------------------------------------------------------- evaluation

  lemma {:induction false} ExecOk(fuel: nat, h: Heap, ctx: Ctx, e: LExpr)
    requires HeapOk(h) && CtxOk(ctx) && OnTime(e)
    ensures Fine(Exec(fuel, h, ctx, e))
    decreases fuel, 1, e, 1, 0, 0
  {
    match e
    case LSlot(s) => SlotOk(fuel, h, ctx, s);
    case LSuper => if ctx.sup.Some? { StandaloneOk(ctx.sup.value); }
    case LSuperField(f) => if ctx.sup.Some? { FieldOk(fuel, h, ctx.sup.value.obj, ctx.sup.value.level, f); }
    case LNode(_, _) => NodeOk(fuel, h, ctx, e);
    case LArr(_, _) => ArrOk(fuel, h, ctx, e);
    case LLocal(_, _, _) => LocalOk(fuel, h, ctx, e);
    case LFn(_, _, _) => FnOk(fuel, h, ctx, e);
    case LObj(_) => ObjectOk(fuel, h, ctx, e);
    case LExtend(_, _) => ExtendOk(fuel, h, ctx, e);
    case LComp(_, _, _) => CompOk(fuel, h, ctx, e);
    case _ =>
  }

  lemma {:induction false} SlotOk(fuel: nat, h: Heap, ctx: Ctx, s: Slot)
    requires HeapOk(h) && CtxOk(ctx)
    ensures Fine(Exec(fuel, h, ctx, LSlot(s)))
    decreases fuel, 1, LSlot(s), 0, 0, 0
  {
    hide HeapOk, CtxOk, ThunkOk;
    ReadOk(h, ctx, s);
    if ReadSlot(h, ctx, s).Some? { ForceOk(fuel, h, ReadSlot(h, ctx, s).value); }
  }

  lemma ArrOk(fuel: nat, h: Heap, ctx: Ctx, e: LExpr)
    requires HeapOk(h) && CtxOk(ctx) && e.LArr? && OnTime(e)
    ensures Fine(Exec(fuel, h, ctx, e))
  {
    hide HeapOk, CtxOk;
    EnterOk(h, ctx, e.shape);
    var c := EnterUsing(h, ctx, e.shape);
    if c.Some? {
      forall i | 0 <= i < |e.items| ensures ThunkOk(LSuspended(c.value, e.items)[i]) {}
    }
  }

  lemma {:induction false} LocalOk(fuel: nat, h: Heap, ctx: Ctx, e: LExpr)
    requires HeapOk(h) && CtxOk(ctx) && e.LLocal? && OnTime(e)
    ensures Fine(Exec(fuel, h, ctx, e))
    decreases fuel, 1, e, 0, 0, 0
  {
    hide HeapOk, ThunksOk, SupOk, OnTimeBind, Fine;
    PackOk(h, ctx, e.shape.captures);
    PanicOk(h);
    var caps := PackCaptures(h, ctx, e.shape.captures);
    if caps.Some? {
      NewOk(h, e.shape.n);
      var c := Ctx(caps.value, |h|, ctx.sup);
      FillOk(NewFrame(h, e.shape.n), c, e.binds);
      var r := FillBinds(NewFrame(h, e.shape.n), c, e.binds);
      if r.Some? { ExecOk(fuel, r.value, c, e.body); }
    }
  }

  lemma PanicOk(h: Heap)
    requires HeapOk(h)
    ensures Fine(Run(h, Panic)) && Fine(Run(h, LFails)) && Fine(Run(h, LOutOfFuel))
  {}

  lemma FnOk(fuel: nat, h: Heap, ctx: Ctx, e: LExpr)
    requires HeapOk(h) && CtxOk(ctx) && e.LFn? && OnTime(e)
    ensures Fine(Exec(fuel, h, ctx, e))
  {
    hide HeapOk, ThunksOk, SupOk;
    PackOk(h, ctx, e.shape.captures);
  }

  lemma ObjectOk(fuel: nat, h: Heap, ctx: Ctx, e: LExpr)
    requires HeapOk(h) && CtxOk(ctx) && e.LObj? && OnTime(e)
    ensures Fine(Exec(fuel, h, ctx, e))
  {
    hide HeapOk, CtxOk, LayerOk, OnTimeObj, BuildLayer;
    BuildOk(h, ctx, e.def);
  }

  lemma {:induction false} ExtendOk(fuel: nat, h: Heap, ctx: Ctx, e: LExpr)
    requires HeapOk(h) && CtxOk(ctx) && e.LExtend? && OnTime(e)
    ensures Fine(Exec(fuel, h, ctx, e))
    decreases fuel, 1, e, 0, 0, 0
  {
    hide HeapOk, CtxOk, LayerOk, OnTimeObj, BuildLayer;
    ExecOk(fuel, h, ctx, e.base);
    var r := Exec(fuel, h, ctx, e.base);
    BuildOk(r.h, ctx, e.def);
  }

  lemma {:induction false} ForceOk(fuel: nat, h: Heap, t: LThunk)
    requires HeapOk(h) && ThunkOk(t)
    ensures Fine(ForceL(fuel, h, t))
    decreases fuel, 0, LBad, 1, 0, 0
  {
    hide HeapOk, CtxOk, ObjOk;
    if t.LSusp? && fuel > 0 { ExecOk(fuel - 1, h, t.ctx, t.e); }
  }

  lemma {:induction false} FieldOk(fuel: nat, h: Heap, o: LObjVal, top: nat, f: string)
    requires HeapOk(h) && ObjOk(o)
    ensures Fine(GetFieldL(fuel, h, o, top, f))
    decreases fuel, 0, LBad, 1, 0, 0
  {
    PanicOk(h);
    if top <= |o.layers| && LFindLayer(o.layers, top, f).Some? && fuel > 0 {
      var l := LFindLayer(o.layers, top, f).value;
      var field := o.layers[l].def.fields[LFieldIndex(o.layers[l].def.fields, f).value];
      assert LayerOk(o.layers[l]) && OnTime(field.value);
      MemberOk(h, o, l);
      hide HeapOk, ObjOk, CtxOk, OnTime, MemberCtx, Fine;
      var r := MemberCtx(h, o, l);
      PanicOk(r.h);
      if r.out.LOk? {
        EnterOk(r.h, r.out.v, field.shape);
        var c := EnterUsing(r.h, r.out.v, field.shape);
        if c.Some? { ExecOk(fuel - 1, r.h, c.value, field.value); }
      }
    }
  }

  lemma {:induction false} CallOk(fuel: nat, h: Heap, v: LVal, args: seq<LThunk>)
    requires HeapOk(h) && ValOk(v) && ThunksOk(args)
    ensures Fine(CallL(fuel, h, v, args))
    decreases fuel, 0, LBad, 2, 0, 0
  {
    PanicOk(h);
    if v.LId? {
      if |args| == 1 && fuel > 0 { ForceOk(fuel - 1, h, args[0]); }
    } else if v.LClosure? && v.fn.LFn? && LCanCall(v.fn.params, |args|) && fuel > 0 {
      var c, ds := Ctx(v.caps, |h|, v.sup), Defaults(v.fn.params, |args|);
      assert CtxOk(c);
      forall i | 0 <= i < |ds| ensures OnTimeBind(ds[i]) {}
      hide HeapOk, ThunksOk, CtxOk, SupOk, OnTimeBind, Fine;
      NewOk(h, v.fn.shape.n);
      ArgsOk(NewFrame(h, v.fn.shape.n), |h|, v.fn.params, args);
      var r := FillArgs(NewFrame(h, v.fn.shape.n), |h|, v.fn.params, args);
      if r.Some? {
        FillOk(r.value, c, ds);
        var s := FillBinds(r.value, c, ds);
        if s.Some? { ExecOk(fuel - 1, s.value, c, v.fn.body); }
      }
    }
  }

  lemma {:induction false} IndexOk(fuel: nat, h: Heap, v: LVal, k: LVal)
    requires HeapOk(h) && ValOk(v) && ValOk(k)
    ensures Fine(IndexL(fuel, h, v, k))
    decreases fuel, 0, LBad, 2, 0, 0
  {
    hide HeapOk, ObjOk, ThunkOk;
    if v.LObjV? && k.LTriv? && k.t.Str? {
      FieldOk(fuel, h, v.obj, |v.obj.layers|, k.t.s);
    } else if v.LArrV? && k.LTriv? && k.t.Num? && 0 <= k.t.n < |v.items| {
      ForceOk(fuel, h, v.items[k.t.n]);
    }
  }

  lemma {:induction false} NodeOk(fuel: nat, h: Heap, ctx: Ctx, e: LExpr)
    requires HeapOk(h) && CtxOk(ctx) && e.LNode? && OnTime(e)
    ensures Fine(ExecNode(fuel, h, ctx, e))
    decreases fuel, 1, e, 0, 0, 0
  {
    hide HeapOk, CtxOk, ObjOk, ThunksOk, Exec, CallL, IndexL;
    if e.kids != [] {
      ExecOk(fuel, h, ctx, e.kids[0]);
      var r := Exec(fuel, h, ctx, e.kids[0]);
      if r.out.LOk? {
        if e.op.Apply? {
          MkThunksOk(r.h, ctx, e.kids[1..]);
          var args := MkLThunks(r.h, ctx, e.kids[1..]);
          if args.Some? { CallOk(fuel, r.h, r.out.v, args.value); }
        } else if |e.kids| >= 2 {
          ExecOk(fuel, r.h, ctx, e.kids[1]);
          if |e.kids| >= 3 { ExecOk(fuel, r.h, ctx, e.kids[2]); }
          var s := Exec(fuel, r.h, ctx, e.kids[1]);
          if s.out.LOk? { IndexOk(fuel, s.h, r.out.v, s.out.v); }
        }
      }
    }
  }

  // ---------------------------------------------------------------- comprehensions

  ghost predicate CachedOk(cached: seq<Option<seq<LThunk>>>) {
    forall j :: 0 <= j < |cached| && cached[j].Some? ==> ThunksOk(cached[j].value)
  }

  lemma ElementsOk(v: LVal)
    requires ValOk(v) && Elements(v).Some?
    ensures ThunksOk(Elements(v).value)
  {
    if v.LConsts? {
      forall i | 0 <= i < |v.consts| ensures ThunkOk(Elements(v).value[i]) {
        assert Elements(v).value[i] == LSusp(Ctx([], 0, None), LLit(v.consts[i]));
      }
    }
  }

  /** The first source may be evaluated early; nothing after it is. */
  lemma {:induction false} CacheOk(fuel: nat, h: Heap, ctx: Ctx, lc: LExpr, k: nat)
    requires lc.LComp? && k <= |lc.specs| && HeapOk(h) && CtxOk(ctx) && OnTime(lc)
    ensures var r := CacheOvers(fuel, h, ctx, lc, k);
            HeapOk(r.h) && !r.out.Hoisted? && (r.out.LOk? ==> CachedOk(r.out.v))
    decreases fuel, 1, lc, 0, k, 1
  {
    hide HeapOk, CtxOk, ThunksOk, Exec;
    if k > 0 {
      CacheOk(fuel, h, ctx, lc, k - 1);
      var r, s := CacheOvers(fuel, h, ctx, lc, k - 1), lc.specs[k - 1];
      assert OnTimeSpec(s, k - 1);
      if r.out.LOk? && s.LFor? && s.inv {
        ExecOk(fuel, r.h, ctx, s.over);
        var v := Exec(fuel, r.h, ctx, s.over);
        if v.out.LOk? && Elements(v.out.v).Some? { ElementsOk(v.out.v); }
      }
    }
  }

  lemma {:induction false} CompOk(fuel: nat, h: Heap, ctx: Ctx, e: LExpr)
    requires e.LComp? && HeapOk(h) && CtxOk(ctx) && OnTime(e)
    ensures Fine(Exec(fuel, h, ctx, e))
    decreases fuel, 1, e, 0, 2 * |e.specs| + 2, 0
  {
    hide HeapOk, CtxOk, ThunksOk, CacheOvers, ExecSpecs, CachedOk;
    CacheOk(fuel, h, ctx, e, |e.specs|);
    var r := CacheOvers(fuel, h, ctx, e, |e.specs|);
    if r.out.LOk? { SpecsOk(fuel, r.h, ctx, e, r.out.v, 0); }
  }

  lemma CollectOk(h: Heap, ctx: Ctx, lc: LExpr)
    requires lc.LComp? && HeapOk(h) && CtxOk(ctx) && OnTime(lc)
    ensures Collect(h, ctx, lc).Some? ==> ThunkOk(Collect(h, ctx, lc).value)
  {
    hide HeapOk, CtxOk;
    if lc.value.LSlot? { ReadOk(h, ctx, lc.value.s); } else { EnterOk(h, ctx, lc.vshape); }
  }

  lemma {:induction false} SpecsOk(fuel: nat, h: Heap, ctx: Ctx, lc: LExpr, cached: seq<Option<seq<LThunk>>>, k: nat)
    requires lc.LComp? && |cached| == |lc.specs| && k <= |lc.specs|
    requires HeapOk(h) && CtxOk(ctx) && OnTime(lc) && CachedOk(cached)
    ensures FineTs(ExecSpecs(fuel, h, ctx, lc, cached, k))
    decreases fuel, 1, lc, 0, 2 * (|lc.specs| - k) + 1, 1
  {
    hide HeapOk, CtxOk, ThunkOk, Exec, ExecIter;
    if k == |lc.specs| {
      CollectOk(h, ctx, lc);
    } else {
      assert OnTimeSpec(lc.specs[k], k);
      match lc.specs[k]
      case LCond(cond) =>
        ExecOk(fuel, h, ctx, cond);
        SpecsOk(fuel, Exec(fuel, h, ctx, cond).h, ctx, lc, cached, k + 1);
      case LFor(_, _, over, _) =>
        if cached[k].Some? {
          RoundsOk(fuel, h, ctx, lc, cached, k, cached[k].value);
        } else {
          ExecOk(fuel, h, ctx, over);
          var r := Exec(fuel, h, ctx, over);
          if r.out.LOk? && Elements(r.out.v).Some? {
            ElementsOk(r.out.v);
            RoundsOk(fuel, r.h, ctx, lc, cached, k, Elements(r.out.v).value);
          }
        }
    }
  }

  lemma IterationOk(h: Heap, ctx: Ctx, s: LSpec, item: LThunk)
    requires s.LFor? && HeapOk(h) && CtxOk(ctx) && ThunkOk(item)
    ensures var r := EnterIteration(h, ctx, s, item); HeapOk(r.h) && (r.out.LOk? ==> CtxOk(r.out.v))
  {
    hide HeapOk, ThunksOk, SupOk, ThunkOk;
    PackOk(h, ctx, s.shape.captures);
    NewOk(h, s.shape.n);
    SetOk(NewFrame(h, s.shape.n), |h|, s.slot, item);
  }

  lemma {:induction false} RoundsOk(fuel: nat, h: Heap, ctx: Ctx, lc: LExpr, cached: seq<Option<seq<LThunk>>>, k: nat,
                                    items: seq<LThunk>)
    requires lc.LComp? && |cached| == |lc.specs| && k < |lc.specs| && lc.specs[k].LFor?
    requires HeapOk(h) && CtxOk(ctx) && OnTime(lc) && CachedOk(cached) && ThunksOk(items)
    ensures FineTs(ExecIter(fuel, h, ctx, lc, cached, k, items))
    decreases fuel, 1, lc, 0, 2 * (|lc.specs| - k), |items|
  {
    hide HeapOk, CtxOk, ThunkOk, ExecSpecs, EnterIteration, CachedOk, OnTime;
    if items != [] {
      IterationOk(h, ctx, lc.specs[k], items[0]);
      var r := EnterIteration(h, ctx, lc.specs[k], items[0]);
      if r.out.LOk? {
        SpecsOk(fuel, r.h, r.out.v, lc, cached, k + 1);
        var s := ExecSpecs(fuel, r.h, r.out.v, lc, cached, k + 1);
        if s.out.LOk? { RoundsOk(fuel, s.h, ctx, lc, cached, k, items[1..]); }
      }
    }
  }
}
