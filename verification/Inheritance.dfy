/** The laws of objects: which layer a field is read from, what its value sees as `self` and `super`,
    in the reference evaluator and, for compiled programs, in the packed machine. */
module Inheritance {
  import opened Options
  import opened Syntax
  import opened Resolution
  import opened ByName
  import opened Packed
  import opened SafeSources
  import opened Programs
  import P = Punctual

  // ---------------------------------------------------------------- which layer

  /** Field `i` is the one that `f` refers to in `def`. */
  ghost predicate FieldOf(def: ObjBody, f: string, i: nat) {
    i < |def.fields| && def.fields[i].name == f && forall j :: i < j < |def.fields| ==> def.fields[j].name != f
  }

  ghost predicate Defines(def: ObjBody, f: string) { exists i :: 0 <= i < |def.fields| && def.fields[i].name == f }

  /** Layer `l` defines `f`, and no layer between it and `top` does. */
  ghost predicate Topmost(layers: seq<Layer>, top: nat, f: string, l: nat) {
    l < top <= |layers| && Defines(layers[l].def, f) && forall k :: l < k < top ==> !Defines(layers[k].def, f)
  }

  lemma {:induction false} FieldIndexIs(fs: seq<Bind>, f: string)
    ensures FieldIndex(fs, f).None? ==> forall i :: 0 <= i < |fs| ==> fs[i].name != f
    ensures FieldIndex(fs, f).Some? ==> forall j :: FieldIndex(fs, f).value < j < |fs| ==> fs[j].name != f
    decreases |fs|
  {
    if fs != [] && fs[|fs| - 1].name != f {
      FieldIndexIs(fs[..|fs| - 1], f);
      assert forall j :: 0 <= j < |fs| - 1 ==> fs[..|fs| - 1][j] == fs[j];
    }
  }

  lemma FieldOfIs(def: ObjBody, f: string, i: nat)
    ensures FieldIndex(def.fields, f) == Some(i) <==> FieldOf(def, f, i)
    ensures FieldIndex(def.fields, f).Some? <==> Defines(def, f)
  {
    FieldIndexIs(def.fields, f);
  }

  /** A field read below `top` is that of the topmost layer there that defines it. */
  lemma {:induction false} FindLayerIs(layers: seq<Layer>, top: nat, f: string, l: nat)
    requires top <= |layers|
    ensures FindLayer(layers, top, f) == Some(l) <==> Topmost(layers, top, f, l)
    ensures FindLayer(layers, top, f).None? <==> forall k :: 0 <= k < top ==> !Defines(layers[k].def, f)
    decreases top
  {
    if top > 0 {
      FieldOfIs(layers[top - 1].def, f, 0);
      FindLayerIs(layers, top - 1, f, l);
    }
  }

  // ---------------------------------------------------------------- what a field gives

  /** The value of a member or a suspended expression: one step further down. */
  ghost function Later(fuel: nat, env: Env, e: Expr): Outcome<Val> {
    if fuel == 0 then OutOfFuel else Eval(false, fuel - 1, env, e)
  }

  /** The object the members of `layer` see when it is layer `l` of `o`: `o`, or the one it is pinned to. */
  ghost function Seen(o: ObjVal, layer: Layer, l: nat): SuperOf { if layer.pin.Some? then layer.pin.value else SuperOf(o, l) }

  /** Member `i` of `layer` as a member of `o`, at level `l`. */
  ghost function MemberOf(fuel: nat, o: ObjVal, layer: Layer, l: nat, i: nat): Outcome<Val>
    requires i < |layer.def.fields|
  {
    Later(fuel, InObj(Seen(o, layer, l).obj, Seen(o, layer, l).level, layer.def, layer.env), layer.def.fields[i].value)
  }

  /** `out` is what reading `f` from the layers of `o` below `top` has to give. */
  ghost predicate ReadsField(fuel: nat, o: ObjVal, top: nat, f: string, out: Outcome<Val>) {
    && (forall l: nat, i: nat :: Topmost(o.layers, top, f, l) && FieldOf(o.layers[l].def, f, i) ==>
          out == MemberOf(fuel, o, o.layers[l], l, i))
    && ((forall l: nat :: !Topmost(o.layers, top, f, l)) ==> out == Fails)
  }

  lemma GetFieldReads(fuel: nat, o: ObjVal, top: nat, f: string)
    ensures ReadsField(fuel, o, top, f, GetField(false, fuel, o, top, f))
  {
    hide Eval;
    if top <= |o.layers| {
      forall l: nat ensures FindLayer(o.layers, top, f) == Some(l) <==> Topmost(o.layers, top, f, l) { FindLayerIs(o.layers, top, f, l); }
      forall l: nat, i: nat | Topmost(o.layers, top, f, l) && FieldOf(o.layers[l].def, f, i)
        ensures GetField(false, fuel, o, top, f) == MemberOf(fuel, o, o.layers[l], l, i)
      {
        FieldOfIs(o.layers[l].def, f, i);
      }
    }
  }

  /** There is at most one such outcome. */
  lemma ReadOnce(fuel: nat, o: ObjVal, top: nat, f: string, a: Outcome<Val>, b: Outcome<Val>)
    requires ReadsField(fuel, o, top, f, a) && ReadsField(fuel, o, top, f, b)
    ensures a == b
  {
    if l: nat :| Topmost(o.layers, top, f, l) {
      FieldOfIs(o.layers[l].def, f, 0);
      var i := FieldIndex(o.layers[l].def.fields, f).value;
      FieldOfIs(o.layers[l].def, f, i);
    }
  }

  function Dot(e: Expr, f: string): Expr { Node(Index, [e, Lit(Str(f))]) }

  lemma {:induction false} DotIs(fuel: nat, env: Env, e: Expr, f: string)
    ensures Eval(false, fuel, env, Dot(e, f)) ==
            match Eval(false, fuel, env, e) case Ok(v) => IndexVal(false, fuel, v, VTriv(Str(f))) case x => x
  {
    assert Eval(false, fuel, env, Lit(Str(f))) == Ok(VTriv(Str(f)));
    hide IndexVal;
    assert Eval(false, fuel, env, Dot(e, f)) == EvalNode(false, fuel, env, Dot(e, f));
    assert Dot(e, f).kids[0] == e && Dot(e, f).kids[1] == Lit(Str(f));
  }

  /** `e.f` reads from all layers of the object that `e` is. */
  lemma {:induction false} DotReads(fuel: nat, env: Env, e: Expr, o: ObjVal, f: string)
    requires Eval(false, fuel, env, e) == Ok(VObj(o))
    ensures ReadsField(fuel, o, |o.layers|, f, Eval(false, fuel, env, Dot(e, f)))
  {
    GetFieldReads(fuel, o, |o.layers|, f);
    DotIs(fuel, env, e, f);
    hide GetField, ReadsField;
  }

  // ---------------------------------------------------------------- extending an object

  ghost function Whole(o: ObjVal, env: Env, def: ObjBody): ObjVal { ObjVal(o.layers + [Layer(env, def, None)]) }

  lemma TopOfWhole(o: ObjVal, env: Env, def: ObjBody, f: string, l: nat)
    ensures var ls := Whole(o, env, def).layers;
            Topmost(ls, |ls|, f, l) <==>
              if Defines(def, f) then l == |o.layers| else Topmost(o.layers, |o.layers|, f, l)
  {
    hide Defines;
    var ls := Whole(o, env, def).layers;
    assert ls[|o.layers|].def == def && forall k :: 0 <= k < |o.layers| ==> ls[k] == o.layers[k];
  }

  /** `(e { def }).f` when `def` defines `f`: that field, with the whole object as `self` and `e` below. */
  lemma {:induction false} OwnField(fuel: nat, env: Env, e: Expr, def: ObjBody, o: ObjVal, f: string, i: nat)
    requires Eval(false, fuel, env, e) == Ok(VObj(o)) && DistinctFields(def.fields) && FieldOf(def, f, i)
    ensures Eval(false, fuel, env, Dot(Extend(e, def), f))
            == Later(fuel, InObj(Whole(o, env, def), |o.layers|, def, env), def.fields[i].value)
  {
    var whole := Whole(o, env, def);
    assert Eval(false, fuel, env, Extend(e, def)) == Ok(VObj(whole));
    DotReads(fuel, env, Extend(e, def), whole, f);
    TopOfWhole(o, env, def, f, |o.layers|);
    hide Eval, FieldOf;
    assert whole.layers[|o.layers|] == Layer(env, def, None);
    assert Defines(def, f) by { FieldOfIs(def, f, i); }
    assert MemberOf(fuel, whole, whole.layers[|o.layers|], |o.layers|, i)
           == Later(fuel, InObj(whole, |o.layers|, def, env), def.fields[i].value);
  }

  /** When it does not, the member that `e.f` reads, but with the whole object as `self`. */
  lemma {:induction false} InheritedField(fuel: nat, env: Env, e: Expr, def: ObjBody, o: ObjVal, f: string, l: nat, i: nat)
    requires Eval(false, fuel, env, e) == Ok(VObj(o)) && DistinctFields(def.fields) && !Defines(def, f)
    requires Topmost(o.layers, |o.layers|, f, l) && FieldOf(o.layers[l].def, f, i)
    ensures Eval(false, fuel, env, Dot(Extend(e, def), f)) == MemberOf(fuel, Whole(o, env, def), o.layers[l], l, i)
    ensures Eval(false, fuel, env, Dot(e, f)) == MemberOf(fuel, o, o.layers[l], l, i)
  {
    var whole := Whole(o, env, def);
    assert Eval(false, fuel, env, Extend(e, def)) == Ok(VObj(whole));
    DotReads(fuel, env, Extend(e, def), whole, f);
    DotReads(fuel, env, e, o, f);
    TopOfWhole(o, env, def, f, l);
    hide Eval, FieldOf;
    assert whole.layers[l] == o.layers[l];
  }

  /** A field that neither defines is not there. */
  lemma {:induction false} NoSuchField(fuel: nat, env: Env, e: Expr, def: ObjBody, o: ObjVal, f: string)
    requires Eval(false, fuel, env, e) == Ok(VObj(o)) && DistinctFields(def.fields)
    requires !Defines(def, f) && forall l: nat :: !Topmost(o.layers, |o.layers|, f, l)
    ensures Eval(false, fuel, env, Dot(Extend(e, def), f)) == Fails
  {
    var whole := Whole(o, env, def);
    assert Eval(false, fuel, env, Extend(e, def)) == Ok(VObj(whole));
    DotReads(fuel, env, Extend(e, def), whole, f);
    forall l: nat ensures !Topmost(whole.layers, |whole.layers|, f, l) { TopOfWhole(o, env, def, f, l); }
  }

  // ---------------------------------------------------------------- `self` and `super`

  /** In a member of layer `l`, `self` is the whole object and `super.f` reads from the layers below `l` only. */
  lemma {:induction false} MemberSees(fuel: nat, o: ObjVal, l: nat, def: ObjBody, up: Env, f: string)
    ensures Eval(false, fuel, InObj(o, l, def, up), Ref(Self)) == Ok(VObj(o))
    ensures ReadsField(fuel, o, l, f, Eval(false, fuel, InObj(o, l, def, up), SuperField(f)))
  {
    GetFieldReads(fuel, o, l, f);
    assert LastIndex(Names(def.locals), Self).None?;
  }

  /** The names given from outside are identifiers. */
  ghost predicate PlainRoot(env: Env) {
    match env
    case Root(names, _) => forall i :: 0 <= i < |names| ==> names[i].Id?
    case Rec(_, up) => PlainRoot(up)
    case Call(_, _, up) => PlainRoot(up)
    case Iter(_, _, up) => PlainRoot(up)
    case InObj(_, _, _, up) => PlainRoot(up)
  }

  lemma {:induction false} DollarBound(env: Env)
    requires PlainRoot(env)
    ensures Lookup(env, Dollar).Some? <==> Enclosing(env).Some?
    decreases env
  {
    match env
    case Root(names, _) => assert Dollar !in names;
    case Rec(_, up) => DollarBound(up);
    case Call(_, _, up) => DollarBound(up);
    case Iter(_, _, up) => DollarBound(up);
    case InObj(_, _, _, _) =>
  }

  /** `$` is the outermost object around a member. */
  lemma {:induction false} DollarSees(fuel: nat, o: ObjVal, l: nat, def: ObjBody, up: Env)
    requires PlainRoot(up)
    ensures Eval(false, fuel, InObj(o, l, def, up), Ref(Dollar))
            == if Enclosing(up).None? then Ok(VObj(o)) else Eval(false, fuel, up, Ref(Dollar))
  {
    DollarBound(up);
    assert LastIndex(Names(def.locals), Dollar).None?;
  }

  /** `super` as a value has the same fields as `super` in front of a name. */
  lemma {:induction false} SuperAsValue(fuel: nat, env: Env, f: string)
    ensures Eval(false, fuel, env, Dot(Ref(Super), f)) == Eval(false, fuel, env, SuperField(f))
  {
    DotIs(fuel, env, Ref(Super), f);
    if Enclosing(env).Some? {
      var s := Enclosing(env).value;
      assert Eval(false, fuel, env, Ref(Super)) == Standalone(s);
      if 0 < s.level <= |s.obj.layers| { BelowReads(fuel, s.obj, s.level, f); }
    }
  }

  lemma BelowReads(fuel: nat, o: ObjVal, top: nat, f: string)
    requires top <= |o.layers|
    ensures GetField(false, fuel, Below(o, top), top, f) == GetField(false, fuel, o, top, f)
  {
    hide Eval;
    var b := Below(o, top);
    forall l: nat ensures Topmost(b.layers, top, f, l) <==> Topmost(o.layers, top, f, l) {}
    if FindLayer(o.layers, top, f).Some? {
      var l := FindLayer(o.layers, top, f).value;
      FindLayerIs(o.layers, top, f, l);
      FindLayerIs(b.layers, top, f, l);
      assert MemberEnv(b, l) == MemberEnv(o, l);
    } else {
      FindLayerIs(o.layers, top, f, 0);
      FindLayerIs(b.layers, top, f, 0);
    }
  }

  // ---------------------------------------------------------------- compiled programs

  lemma DotObserved(e: Expr, le: LExpr, f: string)
    ensures Observed(e, [At(Str(f))]) == Dot(e, f) && LObserved(le, [At(Str(f))]) == LNode(Index, [le, LLit(Str(f))])
  {
    var ps := [At(Str(f))];
    assert ps[..0] == [] && Observed(e, []) == e && LObserved(le, []) == le;
  }

  /** In the packed machine, a field of any compiled object has the outcome that reading it from the
      layers has to give. */
  lemma CompiledDot(fuel: nat, e: Expr, le: LExpr, xs: seq<string>, es: seq<Expr>, les: seq<LExpr>, o: ObjVal, f: string)
    returns (w: Outcome<Val>)
    requires |xs| == |es| == |les| && Compiled(e, le, xs) && Grammatical(e) && SafeProgram(e, xs)
    requires forall i :: 0 <= i < |es| ==> Compiled(es[i], les[i], []) && Grammatical(es[i]) && SafeProgram(es[i], [])
    requires Eval(false, fuel, Root(Idents(xs), Givens(es)), e) == Ok(VObj(o))
    ensures ReadsField(fuel, o, |o.layers|, f, w)
    ensures var out := Exec(fuel, RootHeap(les), RootCtx, LNode(Index, [le, LLit(Str(f))])).out; out.Hoisted? || SameOutcome(out, w)
  {
    hide Eval, Exec, Compiled, Grammatical, SafeProgram, SameOutcome, ReadsField, P.OnTime;
    var ps, env := [At(Str(f))], Root(Idents(xs), Givens(es));
    DotObserved(e, le, f);
    CompiledMeans(fuel, e, le, xs, es, les, ps);
    DotReads(fuel, env, e, o, f);
    w := Eval(false, fuel, env, Dot(e, f));
  }

  /** A field of a compiled `e { def }` has the outcome of `def`'s
      own field, or else of the member that `e` has, with the whole object as `self`. */
  lemma CompiledField(fuel: nat, e: Expr, def: ObjBody, le: LExpr, xs: seq<string>, es: seq<Expr>, les: seq<LExpr>,
                      o: ObjVal, f: string, l: nat, i: nat)
    requires |xs| == |es| == |les| && DistinctFields(def.fields)
    requires Compiled(Extend(e, def), le, xs) && Grammatical(Extend(e, def)) && SafeProgram(Extend(e, def), xs)
    requires forall i :: 0 <= i < |es| ==> Compiled(es[i], les[i], []) && Grammatical(es[i]) && SafeProgram(es[i], [])
    requires Eval(false, fuel, Root(Idents(xs), Givens(es)), e) == Ok(VObj(o))
    requires Defines(def, f) ==> FieldOf(def, f, i)
    requires !Defines(def, f) ==> Topmost(o.layers, |o.layers|, f, l) && FieldOf(o.layers[l].def, f, i)
    ensures var env := Root(Idents(xs), Givens(es));
            var whole := Whole(o, env, def);
            var out := Exec(fuel, RootHeap(les), RootCtx, LNode(Index, [le, LLit(Str(f))])).out;
            out.Hoisted? || SameOutcome(out, if Defines(def, f) then Later(fuel, InObj(whole, |o.layers|, def, env), def.fields[i].value)
                                             else MemberOf(fuel, whole, o.layers[l], l, i))
  {
    var ps := [At(Str(f))];
    var env := Root(Idents(xs), Givens(es));
    DotObserved(Extend(e, def), le, f);
    hide Eval, Exec, Compiled, Grammatical, SafeProgram, SameOutcome, FieldOf, Topmost, Defines, P.OnTime;
    CompiledMeans(fuel, Extend(e, def), le, xs, es, les, ps);
    if Defines(def, f) {
      OwnField(fuel, env, e, def, o, f, i);
    } else {
      InheritedField(fuel, env, e, def, o, f, l, i);
    }
  }
}
