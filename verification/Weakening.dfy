/** Iteration variables that an expression does not mention play no part in evaluating it: evaluation
    with the sources of comprehensions moved out of their reach gives the same outcomes, up to the
    environments kept inside values. */
module Weakening {
  import opened Options
  import opened Syntax
  import opened Resolution
  import opened ResolutionLaws
  import opened ByName

  // ---------------------------------------------------------------- environments that differ in unused variables

  /** `b` is `a` without some iteration variables, none of them needed for the names in `ns`. */
  ghost predicate EnvSim(a: Env, b: Env, ns: set<Name>)
    decreases a, 1
  {
    || (a.Iter? && Id(a.x) !in ns && EnvSim(a.up, b, ns))
    || match (a, b)
       case (Root(_, _), Root(_, _)) => a == b
       case (Rec(bs, u), Rec(cs, v)) => bs == cs && EnvSim(u, v, Needed(ns, FVBinds(bs), Names(bs)))
       case (Call(ps, xs, u), Call(qs, ys, v)) =>
         ps == qs && ThunksSim(xs, ys) && EnvSim(u, v, Needed(ns, FVParams(ps), ParamNames(ps)))
       case (Iter(x, t, u), Iter(y, r, v)) => x == y && ThunkSim(t, r) && EnvSim(u, v, ns - {Id(x)})
       case (InObj(o, l, d, u), InObj(p, m, d', v)) =>
         l == m && d == d' && ObjSim(o, p) && EnvSim(u, v, MemberNeeds(ns, d))
       case _ => false
  }

  ghost function Needed(ns: set<Name>, free: set<Name>, bound: seq<Name>): set<Name> { ns + free - NameSet(bound) }

  ghost function MemberNeeds(ns: set<Name>, def: ObjBody): set<Name> {
    (ns - NameSet(Names(def.locals)) - {Self, Super}) + FVObj(def)
  }

  ghost predicate ThunkSim(t: Thunk, r: Thunk)
    decreases t, 1
  {
    match (t, r)
    case (Susp(a, e), Susp(b, f)) => e == f && EnvSim(a, b, FV(e))
    case (Whole(o), Whole(p)) => ObjSim(o, p)
    case _ => false
  }

  ghost predicate ThunksSim(ts: seq<Thunk>, rs: seq<Thunk>)
    decreases ts, 0
  {
    |ts| == |rs| && forall i :: 0 <= i < |ts| ==> ThunkSim(ts[i], rs[i])
  }

  ghost predicate ObjSim(o: ObjVal, p: ObjVal)
    decreases o, 1
  {
    |o.layers| == |p.layers| && forall i :: 0 <= i < |o.layers| ==> LayerSim(o.layers[i], p.layers[i])
  }

  ghost predicate LayerSim(l: Layer, m: Layer)
    decreases l, 1
  {
    l.def == m.def && EnvSim(l.env, m.env, FVObj(l.def)) && PinSim(l.pin, m.pin)
  }

  ghost predicate PinSim(p: Option<SuperOf>, q: Option<SuperOf>)
    decreases p, 0
  {
    p.Some? == q.Some? && (p.Some? ==> p.value.level == q.value.level && ObjSim(p.value.obj, q.value.obj))
  }

  ghost predicate ValSim(v: Val, w: Val) {
    match (v, w)
    case (VTriv(t), VTriv(r)) => t == r
    case (VClosure(ps, e, a), VClosure(qs, f, b)) => ps == qs && e == f && EnvSim(a, b, FV(Fn(ps, e)))
    case (VArr(ts), VArr(rs)) => ThunksSim(ts, rs)
    case (VObj(o), VObj(p)) => ObjSim(o, p)
    case _ => false
  }

  /** The same kind of outcome, with values that differ only in unused variables. */
  ghost predicate OutSim(v: Outcome<Val>, w: Outcome<Val>) {
    match (v, w)
    case (Ok(x), Ok(y)) => ValSim(x, y)
    case (Fails, Fails) => true
    case (OutOfFuel, OutOfFuel) => true
    case _ => false
  }

  ghost predicate OutsSim(v: Outcome<seq<Thunk>>, w: Outcome<seq<Thunk>>) {
    match (v, w)
    case (Ok(x), Ok(y)) => ThunksSim(x, y)
    case (Fails, Fails) => true
    case (OutOfFuel, OutOfFuel) => true
    case _ => false
  }

  lemma {:induction false} FewerNames(a: Env, b: Env, ns: set<Name>, ms: set<Name>)
    requires EnvSim(a, b, ns) && ms <= ns
    ensures EnvSim(a, b, ms)
    decreases a
  {
    if a.Iter? && Id(a.x) !in ns && EnvSim(a.up, b, ns) {
      FewerNames(a.up, b, ns, ms);
    } else {
      match a
      case Root(_, _) =>
      case Rec(bs, u) => FewerNames(u, b.up, Needed(ns, FVBinds(bs), Names(bs)), Needed(ms, FVBinds(bs), Names(bs)));
      case Call(ps, _, u) =>
        FewerNames(u, b.up, Needed(ns, FVParams(ps), ParamNames(ps)), Needed(ms, FVParams(ps), ParamNames(ps)));
      case Iter(x, _, u) => FewerNames(u, b.up, ns - {Id(x)}, ms - {Id(x)});
      case InObj(_, _, d, u) => FewerNames(u, b.up, MemberNeeds(ns, d), MemberNeeds(ms, d));
    }
  }

  lemma {:induction false} EnvRefl(a: Env, ns: set<Name>)
    ensures EnvSim(a, a, ns)
    decreases a, 1
  {
    match a
    case Root(_, _) =>
    case Rec(bs, u) => EnvRefl(u, Needed(ns, FVBinds(bs), Names(bs)));
    case Call(ps, xs, u) =>
      ThunksRefl(xs);
      EnvRefl(u, Needed(ns, FVParams(ps), ParamNames(ps)));
    case Iter(x, t, u) =>
      ThunkRefl(t);
      EnvRefl(u, ns - {Id(x)});
    case InObj(o, _, d, u) =>
      ObjRefl(o);
      EnvRefl(u, MemberNeeds(ns, d));
  }

  lemma {:induction false} ThunkRefl(t: Thunk)
    ensures ThunkSim(t, t)
    decreases t, 1
  {
    match t
    case Susp(a, e) => EnvRefl(a, FV(e));
    case Whole(o) => ObjRefl(o);
  }

  lemma {:induction false} ThunksRefl(ts: seq<Thunk>)
    ensures ThunksSim(ts, ts)
    decreases ts, 0
  {
    forall i | 0 <= i < |ts| ensures ThunkSim(ts[i], ts[i]) { ThunkRefl(ts[i]); }
  }

  lemma {:induction false} ObjRefl(o: ObjVal)
    ensures ObjSim(o, o)
    decreases o, 1
  {
    forall i | 0 <= i < |o.layers| ensures LayerSim(o.layers[i], o.layers[i]) {
      EnvRefl(o.layers[i].env, FVObj(o.layers[i].def));
      if o.layers[i].pin.Some? { ObjRefl(o.layers[i].pin.value.obj); }
    }
  }

  /** The object names look through iterations. */
  lemma {:induction false} DollarSim(a: Env, b: Env, ns: set<Name>)
    requires EnvSim(a, b, ns)
    ensures Lookup(a, Dollar).None? <==> Lookup(b, Dollar).None?
    decreases a
  {
    if a.Iter? && Id(a.x) !in ns && EnvSim(a.up, b, ns) {
      DollarSim(a.up, b, ns);
    } else {
      match a
      case Root(_, _) =>
      case Rec(bs, u) => DollarSim(u, b.up, Needed(ns, FVBinds(bs), Names(bs)));
      case Call(ps, _, u) => DollarSim(u, b.up, Needed(ns, FVParams(ps), ParamNames(ps)));
      case Iter(x, _, u) => DollarSim(u, b.up, ns - {Id(x)});
      case InObj(_, _, d, u) => DollarSim(u, b.up, MemberNeeds(ns, d));
    }
  }

  ghost predicate MaybeSim(t: Option<Thunk>, r: Option<Thunk>) {
    t.Some? == r.Some? && (t.Some? ==> ThunkSim(t.value, r.value))
  }

  /** A needed name is bound to the same thing. */
  lemma {:induction false} LookupSim(a: Env, b: Env, ns: set<Name>, n: Name)
    requires EnvSim(a, b, ns) && n in ns
    ensures MaybeSim(Lookup(a, n), Lookup(b, n))
    decreases a
  {
    if a.Iter? && Id(a.x) !in ns && EnvSim(a.up, b, ns) {
      LookupSim(a.up, b, ns, n);
    } else {
      match a
      case Root(_, _) => if Lookup(a, n).Some? { ThunkRefl(Lookup(a, n).value); }
      case Rec(_, _) => LookupRec(a, b, ns, n);
      case Call(_, _, _) => LookupCall(a, b, ns, n);
      case Iter(x, _, u) => if n != Id(x) { LookupSim(u, b.up, ns - {Id(x)}, n); }
      case InObj(_, _, _, _) => LookupObj(a, b, ns, n);
    }
  }

  lemma {:induction false} LookupRec(a: Env, b: Env, ns: set<Name>, n: Name)
    requires a.Rec? && EnvSim(a, b, ns) && n in ns
    ensures MaybeSim(Lookup(a, n), Lookup(b, n))
    decreases a, 0
  {
    var i := LastIndex(Names(a.binds), n);
    if i.Some? {
      var e := a.binds[i.value].value;
      InFVBinds(a.binds, i.value);
      FewerNames(a.up, b.up, Needed(ns, FVBinds(a.binds), Names(a.binds)), Needed(FV(e), FVBinds(a.binds), Names(a.binds)));
    } else {
      LookupSim(a.up, b.up, Needed(ns, FVBinds(a.binds), Names(a.binds)), n);
    }
  }

  lemma {:induction false} LookupCall(a: Env, b: Env, ns: set<Name>, n: Name)
    requires a.Call? && EnvSim(a, b, ns) && n in ns
    ensures MaybeSim(Lookup(a, n), Lookup(b, n))
    decreases a, 0
  {
    var ps := a.params;
    var i := LastIndex(ParamNames(ps), n);
    if i.None? {
      LookupSim(a.up, b.up, Needed(ns, FVParams(ps), ParamNames(ps)), n);
    } else if |a.args| <= i.value && ps[i.value].default.Some? {
      var e := ps[i.value].default.value;
      InFVParams(ps, i.value);
      FewerNames(a.up, b.up, Needed(ns, FVParams(ps), ParamNames(ps)), Needed(FV(e), FVParams(ps), ParamNames(ps)));
    }
  }

  lemma {:induction false} LookupObj(a: Env, b: Env, ns: set<Name>, n: Name)
    requires a.InObj? && EnvSim(a, b, ns) && n in ns
    ensures MaybeSim(Lookup(a, n), Lookup(b, n))
    decreases a, 0
  {
    var i := LastIndex(Names(a.def.locals), n);
    assert b.InObj? && a.def == b.def && ObjSim(a.obj, b.obj) && EnvSim(a.up, b.up, MemberNeeds(ns, a.def));
    DollarSim(a.up, b.up, MemberNeeds(ns, a.def));
    hide ObjSim, FV, FVObj;
    if i.Some? {
      InFVBinds(a.def.locals, i.value);
      MemberSim(a, b, ns, FV(a.def.locals[i.value].value));
    } else if !(n == Dollar && Lookup(a.up, Dollar).None?) && n != Self && n != Super {
      LookupSim(a.up, b.up, MemberNeeds(ns, a.def), n);
    }
  }

  /** Members of an object need no more of its surroundings than the object as a whole. */
  lemma MemberSim(a: Env, b: Env, ns: set<Name>, ms: set<Name>)
    requires a.InObj? && EnvSim(a, b, ns) && ms <= FVBinds(a.def.locals) + FVBinds(a.def.fields)
    ensures EnvSim(a, b, ms)
  {
    FewerNames(a.up, b.up, MemberNeeds(ns, a.def), MemberNeeds(ms, a.def));
  }

  lemma {:induction false} EnclosingSim(a: Env, b: Env, ns: set<Name>)
    requires EnvSim(a, b, ns)
    ensures Enclosing(a).Some? == Enclosing(b).Some?
    ensures Enclosing(a).Some? ==>
              Enclosing(a).value.level == Enclosing(b).value.level && ObjSim(Enclosing(a).value.obj, Enclosing(b).value.obj)
    decreases a
  {
    if a.Iter? && Id(a.x) !in ns && EnvSim(a.up, b, ns) {
      EnclosingSim(a.up, b, ns);
    } else {
      match a
      case Root(_, _) =>
      case Rec(bs, u) => EnclosingSim(u, b.up, Needed(ns, FVBinds(bs), Names(bs)));
      case Call(ps, _, u) => EnclosingSim(u, b.up, Needed(ns, FVParams(ps), ParamNames(ps)));
      case Iter(x, _, u) => EnclosingSim(u, b.up, ns - {Id(x)});
      case InObj(_, _, d, u) =>
    }
  }

  /** Trimming drops only iteration variables that are not needed. */
  lemma {:induction false} TrimSim(a: Env, b: Env, e: Expr)
    requires EnvSim(a, b, FV(e))
    ensures EnvSim(a, Trim(b, e), FV(e))
    decreases a
  {
    hide FV;
    if a.Iter? && Id(a.x) !in FV(e) && EnvSim(a.up, b, FV(e)) {
      TrimSim(a.up, b, e);
    } else if b.Iter? && Id(b.x) !in FV(e) {
      assert FV(e) - {Id(a.x)} == FV(e);
      TrimSim(a.up, b.up, e);
    }
  }

  lemma {:induction false} MkThunkSim(a: Env, b: Env, e: Expr)
    requires EnvSim(a, b, FV(e))
    ensures ThunkSim(MkThunk(a, e), MkThunk(b, e))
    decreases e
  {
    match e
    case Ref(n) => LookupSim(a, b, FV(e), n);
    case Local(binds, body) =>
      if binds == [] {
        assert FV(e) == FV(body) by { assert NameSet(Names(binds)) == {}; }
        MkThunkSim(a, b, body);
      }
    case _ =>
  }

  // ---------------------------------------------------------------- evaluation

  lemma {:induction false} EvalSim(fuel: nat, a: Env, b: Env, e: Expr)
    requires EnvSim(a, b, FV(e))
    ensures OutSim(Eval(false, fuel, a, e), Eval(true, fuel, b, e))
    decreases fuel, 1, e, 1, 0, 0
  {
    match e
    case Lit(_) =>
    case Ref(Super) =>
      EnclosingSim(a, b, FV(e));
      if Enclosing(a).Some? { StandaloneSim(Enclosing(a).value, Enclosing(b).value); }
    case Ref(n) =>
      LookupSim(a, b, FV(e), n);
      if Lookup(a, n).Some? { ForceSim(fuel, Lookup(a, n).value, Lookup(b, n).value); }
    case SuperField(f) =>
      EnclosingSim(a, b, FV(e));
      if Enclosing(a).Some? {
        FieldSim(fuel, Enclosing(a).value.obj, Enclosing(b).value.obj, Enclosing(a).value.level, f);
      }
    case Node(_, _) => NodeSim(fuel, a, b, e);
    case Arr(items) => SuspendedSim(a, b, e);
    case Local(binds, body) => LocalSim(fuel, a, b, e);
    case Fn(_, _) =>
    case Obj(def) =>
    case Extend(base, def) => ExtendSim(fuel, a, b, e);
    case Comp(_, _) => SpecsSim(fuel, a, b, e, 0);
  }

  lemma OwnerSim(o: ObjVal, p: ObjVal, l: nat)
    requires ObjSim(o, p) && l < |o.layers|
    ensures l < |p.layers| && Owner(o, l).level == Owner(p, l).level && ObjSim(Owner(o, l).obj, Owner(p, l).obj)
  {
    assert LayerSim(o.layers[l], p.layers[l]);
    PinKept(o.layers[l], p.layers[l]);
  }

  lemma PinKept(l: Layer, m: Layer)
    requires LayerSim(l, m)
    ensures PinSim(l.pin, m.pin)
  {}

  lemma StandaloneSim(s: SuperOf, r: SuperOf)
    requires s.level == r.level && ObjSim(s.obj, r.obj)
    ensures OutSim(Standalone(s), Standalone(r))
  {
    if 0 < s.level <= |s.obj.layers| {
      forall i | 0 <= i < s.level ensures LayerSim(Below(s.obj, s.level).layers[i], Below(r.obj, r.level).layers[i]) {
        OwnerSim(s.obj, r.obj, i);
        assert LayerSim(s.obj.layers[i], r.obj.layers[i]);
      }
    }
  }

  lemma SuspendedSim(a: Env, b: Env, e: Expr)
    requires e.Arr? && EnvSim(a, b, FV(e))
    ensures ThunksSim(Suspended(a, e.items), Suspended(b, e.items))
  {
    forall i | 0 <= i < |e.items| ensures EnvSim(a, b, FV(e.items[i])) {
      InFVs(e.items, i);
      FewerNames(a, b, FV(e), FV(e.items[i]));
    }
    hide EnvSim, FV;
  }

  lemma {:induction false} LocalSim(fuel: nat, a: Env, b: Env, e: Expr)
    requires e.Local? && EnvSim(a, b, FV(e))
    ensures OutSim(Eval(false, fuel, a, e), Eval(true, fuel, b, e))
    decreases fuel, 1, e, 0, 0, 0
  {
    var bs := e.binds;
    if bs == [] {
      assert FV(e) == FV(e.body) by { assert NameSet(Names(bs)) == {}; }
      EvalSim(fuel, a, b, e.body);
    } else {
      FewerNames(a, b, FV(e), Needed(FV(e.body), FVBinds(bs), Names(bs)));
      assert EnvSim(Rec(bs, a), Rec(bs, b), FV(e.body));
      EvalSim(fuel, Rec(bs, a), Rec(bs, b), e.body);
    }
  }

  lemma {:induction false} ExtendSim(fuel: nat, a: Env, b: Env, e: Expr)
    requires e.Extend? && EnvSim(a, b, FV(e))
    ensures OutSim(Eval(false, fuel, a, e), Eval(true, fuel, b, e))
    decreases fuel, 1, e, 0, 0, 0
  {
    FewerNames(a, b, FV(e), FV(e.base));
    FewerNames(a, b, FV(e), FVObj(e.def));
    hide EnvSim, FV, FVObj;
    EvalSim(fuel, a, b, e.base);
    var v, w := Eval(false, fuel, a, e.base), Eval(true, fuel, b, e.base);
    if v.Ok? && v.v.VObj? {
      NewLayerSim(a, b, e.def);
      assert ObjSim(ObjVal(v.v.obj.layers + [Layer(a, e.def, None)]), ObjVal(w.v.obj.layers + [Layer(b, e.def, None)]));
    }
  }

  lemma NewLayerSim(a: Env, b: Env, def: ObjBody)
    requires EnvSim(a, b, FVObj(def))
    ensures LayerSim(Layer(a, def, None), Layer(b, def, None))
  {}

  lemma {:induction false} ForceSim(fuel: nat, t: Thunk, r: Thunk)
    requires ThunkSim(t, r)
    ensures OutSim(Force(false, fuel, t), Force(true, fuel, r))
    decreases fuel, 0, Lit(Null), 1, 0, 0
  {
    if t.Susp? && fuel > 0 { EvalSim(fuel - 1, t.env, r.env, t.e); }
  }

  lemma {:induction false} LayersSim(o: ObjVal, p: ObjVal, top: nat, f: string)
    requires ObjSim(o, p) && top <= |o.layers|
    ensures FindLayer(o.layers, top, f) == FindLayer(p.layers, top, f)
    decreases top
  {
    if top > 0 {
      assert LayerSim(o.layers[top - 1], p.layers[top - 1]);
      LayersSim(o, p, top - 1, f);
    }
  }

  lemma {:induction false} FieldSim(fuel: nat, o: ObjVal, p: ObjVal, top: nat, f: string)
    requires ObjSim(o, p)
    ensures OutSim(GetField(false, fuel, o, top, f), GetField(true, fuel, p, top, f))
    decreases fuel, 0, Lit(Null), 1, 0, 0
  {
    if top <= |o.layers| {
      LayersSim(o, p, top, f);
      if FindLayer(o.layers, top, f).Some? && fuel > 0 {
        var l := FindLayer(o.layers, top, f).value;
        var i := FieldIndex(o.layers[l].def.fields, f).value;
        FieldEnvSim(o, p, l, i);
        hide EnvSim, ObjSim, FV, Eval;
        EvalSim(fuel - 1, MemberEnv(o, l), MemberEnv(p, l), o.layers[l].def.fields[i].value);
      }
    }
  }

  lemma FieldEnvSim(o: ObjVal, p: ObjVal, l: nat, i: nat)
    requires ObjSim(o, p) && l < |o.layers| && i < |o.layers[l].def.fields|
    ensures l < |p.layers| && p.layers[l].def == o.layers[l].def
    ensures EnvSim(MemberEnv(o, l), MemberEnv(p, l), FV(o.layers[l].def.fields[i].value))
  {
    var d := o.layers[l].def;
    OwnerSim(o, p, l);
    assert LayerSim(o.layers[l], p.layers[l]);
    InFVBinds(d.fields, i);
    FewerNames(o.layers[l].env, p.layers[l].env, FVObj(d), MemberNeeds(FV(d.fields[i].value), d));
  }

  lemma {:induction false} CallSim(fuel: nat, v: Val, w: Val, xs: seq<Thunk>, ys: seq<Thunk>)
    requires ValSim(v, w) && ThunksSim(xs, ys)
    ensures OutSim(CallVal(false, fuel, v, xs), CallVal(true, fuel, w, ys))
    decreases fuel, 0, Lit(Null), 1, 0, 0
  {
    if v.VClosure? && CanCall(v.params, |xs|) && fuel > 0 {
      CallEnvSim(v, w, xs, ys);
      hide EnvSim, FV, Eval;
      EvalSim(fuel - 1, Call(v.params, xs, v.env), Call(w.params, ys, w.env), v.body);
    }
  }

  lemma CallEnvSim(v: Val, w: Val, xs: seq<Thunk>, ys: seq<Thunk>)
    requires v.VClosure? && ValSim(v, w) && ThunksSim(xs, ys)
    ensures EnvSim(Call(v.params, xs, v.env), Call(w.params, ys, w.env), FV(v.body))
  {
    hide ThunksSim;
    FewerNames(v.env, w.env, FV(Fn(v.params, v.body)), Needed(FV(v.body), FVParams(v.params), ParamNames(v.params)));
  }

  lemma {:induction false} IndexSim(fuel: nat, v: Val, w: Val, k: Val, m: Val)
    requires ValSim(v, w) && ValSim(k, m)
    ensures OutSim(IndexVal(false, fuel, v, k), IndexVal(true, fuel, w, m))
    decreases fuel, 0, Lit(Null), 2, 0, 0
  {
    hide ObjSim, ThunkSim, EnvSim;
    if k.VTriv? {
      if v.VObj? && k.t.Str? {
        assert |v.obj.layers| == |w.obj.layers| by { LayerCount(v.obj, w.obj); }
        FieldSim(fuel, v.obj, w.obj, |v.obj.layers|, k.t.s);
      } else if v.VArr? && k.t.Num? && 0 <= k.t.n < |v.items| {
        ForceSim(fuel, v.items[k.t.n], w.items[k.t.n]);
      }
    }
  }

  lemma LayerCount(o: ObjVal, p: ObjVal)
    requires ObjSim(o, p)
    ensures |o.layers| == |p.layers|
  {}

  lemma KidSim(a: Env, b: Env, e: Expr, i: nat)
    requires e.Node? && i < |e.kids| && EnvSim(a, b, FV(e))
    ensures EnvSim(a, b, FV(e.kids[i]))
  {
    InFVs(e.kids, i);
    FewerNames(a, b, FV(e), FV(e.kids[i]));
  }

  lemma {:induction false} NodeSim(fuel: nat, a: Env, b: Env, e: Expr)
    requires e.Node? && EnvSim(a, b, FV(e))
    ensures OutSim(EvalNode(false, fuel, a, e), EvalNode(true, fuel, b, e))
    decreases fuel, 1, e, 0, 0, 0
  {
    hide EnvSim, FV, Eval, ObjSim, ThunksSim, CallVal, IndexVal;
    if e.kids != [] {
      KidSim(a, b, e, 0);
      EvalSim(fuel, a, b, e.kids[0]);
      var v, w := Eval(false, fuel, a, e.kids[0]), Eval(true, fuel, b, e.kids[0]);
      if v.Ok? {
        if e.op.Apply? {
          ArgsSim(a, b, e);
          CallSim(fuel, v.v, w.v, MkThunks(a, e.kids[1..]), MkThunks(b, e.kids[1..]));
        } else if |e.kids| >= 2 {
          KidSim(a, b, e, 1);
          EvalSim(fuel, a, b, e.kids[1]);
          if |e.kids| >= 3 {
            KidSim(a, b, e, 2);
            EvalSim(fuel, a, b, e.kids[2]);
          }
          var k, m := Eval(false, fuel, a, e.kids[1]), Eval(true, fuel, b, e.kids[1]);
          if k.Ok? { IndexSim(fuel, v.v, w.v, k.v, m.v); }
        }
      }
    }
  }

  lemma ArgsSim(a: Env, b: Env, e: Expr)
    requires e.Node? && e.kids != [] && EnvSim(a, b, FV(e))
    ensures ThunksSim(MkThunks(a, e.kids[1..]), MkThunks(b, e.kids[1..]))
  {
    hide EnvSim, FV, ThunkSim;
    forall i | 0 <= i < |e.kids| - 1 ensures ThunkSim(MkThunk(a, e.kids[1..][i]), MkThunk(b, e.kids[1..][i])) {
      KidSim(a, b, e, i + 1);
      MkThunkSim(a, b, e.kids[i + 1]);
    }
  }

  // ---------------------------------------------------------------- comprehensions

  lemma {:induction false} SpecsSim(fuel: nat, a: Env, b: Env, c: Expr, k: nat)
    requires c.Comp? && k <= |c.specs| && EnvSim(a, b, FVSpecs(c, k))
    ensures OutsSim(EvalSpecs(false, fuel, a, c, k), EvalSpecs(true, fuel, b, c, k))
    decreases fuel, 1, c, 0, 2 * (|c.specs| - k) + 1, 0
  {
    if k == |c.specs| {
      MkThunkSim(a, b, c.value);
    } else {
      match c.specs[k]
      case Cond(cond) =>
        FewerNames(a, b, FVSpecs(c, k), FV(cond));
        FewerNames(a, b, FVSpecs(c, k), FVSpecs(c, k + 1));
        hide EnvSim, FV, FVSpecs, Eval;
        EvalSim(fuel, a, b, cond);
        SpecsSim(fuel, a, b, c, k + 1);
      case For(x, over) =>
        FewerNames(a, b, FVSpecs(c, k), FV(over));
        TrimSim(a, b, over);
        hide EnvSim, FV, FVSpecs, Eval, EvalIter;
        EvalSim(fuel, a, Trim(b, over), over);
        var v, w := Eval(false, fuel, a, over), Eval(true, fuel, Trim(b, over), over);
        if v.Ok? && v.v.VArr? { IterSim(fuel, a, b, c, k, v.v.items, w.v.items); }
    }
  }

  lemma {:induction false} IterSim(fuel: nat, a: Env, b: Env, c: Expr, k: nat, xs: seq<Thunk>, ys: seq<Thunk>)
    requires c.Comp? && k < |c.specs| && c.specs[k].For? && EnvSim(a, b, FVSpecs(c, k)) && ThunksSim(xs, ys)
    ensures OutsSim(EvalIter(false, fuel, a, c, k, xs), EvalIter(true, fuel, b, c, k, ys))
    decreases fuel, 1, c, 0, 2 * (|c.specs| - k), |xs|
  {
    if xs != [] {
      var x := c.specs[k].x;
      NextSim(a, b, c, k, xs[0], ys[0]);
      hide EnvSim, FV, FVSpecs, ThunkSim, EvalSpecs;
      SpecsSim(fuel, Iter(x, xs[0], a), Iter(x, ys[0], b), c, k + 1);
      IterSim(fuel, a, b, c, k, xs[1..], ys[1..]);
    }
  }

  lemma NextSim(a: Env, b: Env, c: Expr, k: nat, t: Thunk, r: Thunk)
    requires c.Comp? && k < |c.specs| && c.specs[k].For? && EnvSim(a, b, FVSpecs(c, k)) && ThunkSim(t, r)
    ensures var x := c.specs[k].x; EnvSim(Iter(x, t, a), Iter(x, r, b), FVSpecs(c, k + 1))
  {
    hide ThunkSim;
    FewerNames(a, b, FVSpecs(c, k), FVSpecs(c, k + 1) - {Id(c.specs[k].x)});
  }

  /** Evaluating every source where it stands, or outside the variables it does not mention, gives the
      same kind of outcome, and the same literal if it is one. */
  lemma LeanIsFull(fuel: nat, env: Env, e: Expr)
    ensures OutSim(Eval(false, fuel, env, e), Eval(true, fuel, env, e))
  {
    EnvRefl(env, FV(e));
    EvalSim(fuel, env, env, e);
  }
}
