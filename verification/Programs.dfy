/** Whole programs: analysis against the external names, and what running the result means. */
module Programs {
  import opened Options
  import opened Syntax
  import opened Resolution
  import opened ResolutionLaws
  import opened CaptureStack
  import opened CaptureOrder
  import opened NameStacks
  import opened AnalyzerState
  import opened CaptureWalks
  import opened AnalyzerContracts
  import opened ByName
  import opened Packed
  import opened Correspondence
  import opened FrameSetup
  import opened SafeSources
  import Sim = Simulation
  import Wk = Weakening
  import P = Punctual
  import S = Siblings
  import A = Analyzer

  function Idents(xs: seq<string>): (r: seq<Name>)
    ensures |r| == |xs| && forall i :: 0 <= i < |xs| ==> r[i] == Id(xs[i])
  {
    seq(|xs|, i requires 0 <= i < |xs| => Id(xs[i]))
  }

  /** Externals occupy the first ids, in order; a later one of the same name hides the earlier. */
  ghost function RootScope(xs: seq<string>): Scope { BindAll(Scope(map[], 0), Idents(xs)) }

  ghost function RootView(n: nat): View { View([], 0, n, false, false) }

  /** `le` is a correct resolution of the program `e` with externals `xs`. */
  ghost predicate Lowers(e: Expr, le: LExpr, xs: seq<string>) { Res(e, le, RootScope(xs), RootView(|xs|)) }

  /** `le` is a correct resolution of `e` whose closures capture in the order of first mention. */
  ghost predicate Compiled(e: Expr, le: LExpr, xs: seq<string>) {
    Lowers(e, le, xs) && Ordered(e, le, RootScope(xs), RootView(|xs|))
  }

  /** The condition on the source under which every bare comprehension element is read right. */
  ghost predicate SafeProgram(e: Expr, xs: seq<string>) { SafeSource(e, NameSet(Idents(xs)), false) }

  // ---------------------------------------------------------------- analysis of a whole program

  ghost function RootSnap(xs: seq<string>): Snap {
    Snap(ExternalDefs(xs), 0, None, None, false, false, false, [Frame(Some(Defining(0, |xs|)), NoCaptures, [])], [[]], false)
  }

  lemma RootGood(xs: seq<string>)
    ensures Good(RootSnap(xs)) && Sc(RootSnap(xs)) == RootScope(xs) && Top(RootSnap(xs)) == RootView(|xs|)
    ensures Dom(RootSnap(xs)) == NameSet(Idents(xs))
  {
    RootNames(xs);
    forall n ensures n in RootScope(xs).ids <==> n in Idents(xs) { RootIds(Idents(xs), n); }
  }

  lemma {:induction false} RootIds(ns: seq<Name>, n: Name)
    ensures var ids := BindAll(Scope(map[], 0), ns).ids;
            (n in ids <==> n in ns) && (n in ids ==> LastIndex(ns, n) == Some(ids[n]))
    decreases |ns|
  {
    if ns != [] {
      RootIds(ns[..|ns| - 1], n);
      assert ns == ns[..|ns| - 1] + [ns[|ns| - 1]];
    }
  }

  lemma {:induction false} RootNames(xs: seq<string>)
    ensures ScopeOf(ExternalDefs(xs), None, None) == RootScope(xs)
    decreases |xs|
  {
    if xs != [] {
      var ys := xs[..|xs| - 1];
      RootNames(ys);
      assert ExternalDefs(xs) == ExternalDefs(ys) + [ExternalDefs(xs)[|ys|]] && Idents(xs)[..|ys|] == Idents(ys);
      BindOne(ExternalDefs(ys), ExternalDefs(xs)[|ys|], None, None);
    } else {
      assert ExternalDefs(xs) == [] && Idents(xs) == [];
    }
  }

  /** Analyses a whole program. A result is handed on exactly when no static error was found. It is
      then a correct resolution of the program, every closure captures in the order of first mention,
      and the bare element shortcut is sound in it exactly when the source is safe. The root closure
      never captures anything. */
  method AnalyzeRoot(e: Expr, xs: seq<string>) returns (lir: Option<LExpr>, rootShape: Shape)
    ensures lir.Some? <==> WF(e, NameSet(Idents(xs)))
    ensures lir.Some? ==> Compiled(e, lir.value, xs)
    ensures lir.Some? && Grammatical(e) ==> (Safe(lir.value) <==> SafeProgram(e, xs))
    ensures rootShape == Shape([], |xs|)
  {
    var stack := new A.AnalysisStack(xs);
    RootGood(xs);
    ghost var s0 := stack.State();
    assert s0 == RootSnap(xs);
    RootResolvable(xs, FreeIds(e, RootScope(xs)));
    var le, t := stack.Analyze(e, S.Nothing);
    RootTop(xs, stack.State(), e, le, t);
    RootSafe(xs, stack.State(), e, le, t);
    lir := if stack.errored then None else Some(le);
    rootShape := stack.PopClosure();
  }

  lemma RootResolvable(xs: seq<string>, ids: set<nat>)
    requires Good(RootSnap(xs)) && exists ns :: ids == IdsOf(ns, Sc(RootSnap(xs)))
    ensures Resolvable(RootSnap(xs), ids)
  {
    var s := RootSnap(xs);
    var ns :| ids == IdsOf(ns, Sc(s));
    forall id | id in ids ensures CanResolve(s.frames, 0, id) {
      var n :| n in ns && n in Sc(s).ids && Sc(s).ids[n] == id;
      LiveId(s, n);
    }
  }

  lemma RootTop(xs: seq<string>, s1: Snap, e: Expr, le: LExpr, t: S.Analysis)
    requires Good(RootSnap(xs)) && Good(s1) && Analyzed(RootSnap(xs), s1, e, le, S.Nothing, t)
    ensures Top(s1) == Top(RootSnap(xs)) && TopShape(s1) == Shape([], |xs|) && s1.caps != []
  {
    var s0 := RootSnap(xs);
    assert FrameGrown(s0.frames[0], s0.caps[0], s1.frames[0], s1.caps[0], FreeIds(e, Sc(s0)));
    assert FrameAt(s1.frames, s1.caps, 0);
  }

  lemma RootSafe(xs: seq<string>, s1: Snap, e: Expr, le: LExpr, t: S.Analysis)
    requires Good(RootSnap(xs)) && Good(s1) && Analyzed(RootSnap(xs), s1, e, le, S.Nothing, t)
    requires Sc(RootSnap(xs)) == RootScope(xs) && Top(s1) == RootView(|xs|) && Dom(RootSnap(xs)) == NameSet(Idents(xs))
    ensures WF(e, NameSet(Idents(xs))) ==> Compiled(e, le, xs)
    ensures WF(e, NameSet(Idents(xs))) && Grammatical(e) ==> (Safe(le) <==> SafeProgram(e, xs))
  {
    hide Good, Effect, Tainted, Res, Ordered, WF, FV, Safe, SafeSource, RootScope;
    if WF(e, NameSet(Idents(xs))) && Grammatical(e) { CompiledSafe(e, le, xs); }
  }

  /** Safety of a lowering can be told from its source. */
  lemma CompiledSafe(e: Expr, le: LExpr, xs: seq<string>)
    requires Compiled(e, le, xs) && Grammatical(e)
    ensures Safe(le) <==> SafeProgram(e, xs)
  {
    hide Res, Ordered, Safe, SafeSource, BindAll;
    RootScopeOk(xs);
    SafeIff(e, le, RootScope(xs), RootView(|xs|), RootView(|xs|), false);
  }

  lemma RootScopeOk(xs: seq<string>)
    ensures ScopeOk(RootScope(xs), false) && RootScope(xs).ids.Keys == NameSet(Idents(xs))
  {
    hide BindAll;
    var none := Scope(map[], 0);
    assert ScopeOk(none, false) && none.ids.Keys + NameSet(Idents(xs)) == NameSet(Idents(xs));
    BindAllOk(none, Idents(xs), false);
  }

  // ---------------------------------------------------------------- running a whole program

  /** Closed expressions bound to the externals, and the thunks the two evaluators use for them. */
  ghost function Givens(es: seq<Expr>): (r: seq<Thunk>)
    ensures |r| == |es| && forall i :: 0 <= i < |es| ==> r[i] == Susp(Root([], []), es[i])
  {
    seq(|es|, i requires 0 <= i < |es| => Susp(Root([], []), es[i]))
  }

  function RootHeap(les: seq<LExpr>): Heap {
    [seq(|les|, i requires 0 <= i < |les| => Some(LSusp(Ctx([], 0, None), les[i])))]
  }

  const RootCtx := Ctx([], 0, None)

  /** The same kind of outcome, and the same literal if it is one. */
  ghost predicate SameOutcome(out: LOutcome<LVal>, v: Outcome<Val>) {
    match out
    case LOk(lv) =>
      && v.Ok? && (forall t :: lv == LTriv(t) <==> v.v == VTriv(t))
      && ((lv.LArrV? || lv.LConsts?) <==> v.v.VArr?) && (lv.LObjV? <==> v.v.VObj?)
    case LFails => v.Fails?
    case LOutOfFuel => v.OutOfFuel?
    case _ => false
  }

  // ---------------------------------------------------------------- looking into a result

  /** A step into a value: an element or a field, or a call with arguments lowered to `largs`. */
  datatype Probe = At(key: Trivial) | Call(args: seq<Expr>, largs: seq<LExpr>)

  ghost function Observed(e: Expr, ps: seq<Probe>): Expr {
    if ps == [] then e
    else
      var f, p := Observed(e, ps[..|ps| - 1]), ps[|ps| - 1];
      match p
      case At(key) => Node(Index, [f, Lit(key)])
      case Call(args, _) => Node(Apply, [f] + args)
  }

  ghost function LObserved(le: LExpr, ps: seq<Probe>): LExpr {
    if ps == [] then le
    else
      var lf, p := LObserved(le, ps[..|ps| - 1]), ps[|ps| - 1];
      match p
      case At(key) => LNode(Index, [lf, LLit(key)])
      case Call(_, largs) => LNode(Apply, [lf] + largs)
  }

  ghost predicate ProbeOk(p: Probe, xs: seq<string>) {
    p.Call? ==> |p.args| == |p.largs| && forall i :: 0 <= i < |p.args| ==> Lowers(p.args[i], p.largs[i], xs) && Safe(p.largs[i])
  }

  ghost predicate ProbeOnTime(p: Probe) {
    p.Call? ==> forall i :: 0 <= i < |p.largs| ==> P.OnTime(p.largs[i])
  }

  lemma {:induction false} ObservedLowers(e: Expr, le: LExpr, xs: seq<string>, ps: seq<Probe>)
    requires Lowers(e, le, xs) && Safe(le) && forall i :: 0 <= i < |ps| ==> ProbeOk(ps[i], xs)
    ensures Lowers(Observed(e, ps), LObserved(le, ps), xs) && Safe(LObserved(le, ps))
    ensures P.OnTime(le) && (forall i :: 0 <= i < |ps| ==> ProbeOnTime(ps[i])) ==> P.OnTime(LObserved(le, ps))
    decreases |ps|
  {
    hide Res, Safe, P.OnTime, RootScope, ProbeOnTime, ProbeOk;
    if ps != [] {
      var init, p := ps[..|ps| - 1], ps[|ps| - 1];
      ObservedLowers(e, le, xs, init);
      assert ProbeOk(p, xs);
      ProbeLowers(Observed(e, init), LObserved(le, init), p, RootScope(xs), RootView(|xs|), xs);
    }
  }

  lemma ProbeLowers(f: Expr, lf: LExpr, p: Probe, sc: Scope, v: View, xs: seq<string>)
    requires sc == RootScope(xs) && v == RootView(|xs|) && Res(f, lf, sc, v) && Safe(lf) && ProbeOk(p, xs)
    ensures var e := if p.At? then Node(Index, [f, Lit(p.key)]) else Node(Apply, [f] + p.args);
            var le := if p.At? then LNode(Index, [lf, LLit(p.key)]) else LNode(Apply, [lf] + p.largs);
            && Res(e, le, sc, v) && Safe(le) && (P.OnTime(lf) && ProbeOnTime(p) ==> P.OnTime(le))
  {}

  /** Closure conversion preserves meaning: with the same fuel, the packed machine running the
      lowered program agrees with by-name evaluation of the source, or stops on a source that it
      evaluated ahead of its loop. That holds of the program's value and, by looking into it with
      `ps`, of its elements and fields, and of what its functions give. The machine stops early only
      if some comprehension hoists a source other than its first. It never reads an unfilled cell or a
      slot that is out of range. */
  lemma ClosureConversion(fuel: nat, e: Expr, le: LExpr, xs: seq<string>, es: seq<Expr>, les: seq<LExpr>, ps: seq<Probe>)
    requires |xs| == |es| == |les| && Lowers(e, le, xs) && Safe(le)
    requires forall i :: 0 <= i < |es| ==> Lowers(es[i], les[i], []) && Safe(les[i])
    requires forall i :: 0 <= i < |ps| ==> ProbeOk(ps[i], xs)
    ensures var out := Exec(fuel, RootHeap(les), RootCtx, LObserved(le, ps)).out;
            && (out.Hoisted? || SameOutcome(out, Eval(false, fuel, Root(Idents(xs), Givens(es)), Observed(e, ps))))
            && (P.OnTime(le) && (forall i :: 0 <= i < |les| ==> P.OnTime(les[i])) && (forall i :: 0 <= i < |ps| ==> ProbeOnTime(ps[i]))
                ==> !out.Hoisted?)
  {
    hide Res, Exec, Eval, Safe, SameOutcome, P.OnTime;
    ObservedLowers(e, le, xs, ps);
    SameMeaning(fuel, Observed(e, ps), LObserved(le, ps), xs, es, les);
  }

  lemma SameMeaning(fuel: nat, e: Expr, le: LExpr, xs: seq<string>, es: seq<Expr>, les: seq<LExpr>)
    requires |xs| == |es| == |les| && Lowers(e, le, xs) && Safe(le)
    requires forall i :: 0 <= i < |es| ==> Lowers(es[i], les[i], []) && Safe(les[i])
    ensures var out := Exec(fuel, RootHeap(les), RootCtx, le).out;
            && (out.Hoisted? || SameOutcome(out, Eval(false, fuel, Root(Idents(xs), Givens(es)), e)))
            && (P.OnTime(le) && (forall i :: 0 <= i < |les| ==> P.OnTime(les[i])) ==> !out.Hoisted?)
  {
    hide Res, Exec, Eval, Safe, RelR, HeapOk, CtxRel, SameOutcome, P.OnTime, Wk.OutSim;
    var W, L, env := [Plain(Givens(es))], Link(RootScope(xs), Givens(es), RootView(|xs|)), Root(Idents(xs), Givens(es));
    RootHeapOk(es, les);
    RootRel(xs, es);
    var W' := Sim.SimEval(fuel, RootHeap(les), W, L, RootCtx, le, env, e);
    Wk.LeanIsFull(fuel, env, e);
    OutcomeOf(W', Exec(fuel, RootHeap(les), RootCtx, le).out, Eval(true, fuel, env, e), Eval(false, fuel, env, e));
    if P.OnTime(le) && forall i :: 0 <= i < |les| ==> P.OnTime(les[i]) { RootOnTime(fuel, le, les); }
  }

  lemma RootOnTime(fuel: nat, le: LExpr, les: seq<LExpr>)
    requires P.OnTime(le) && forall i :: 0 <= i < |les| ==> P.OnTime(les[i])
    ensures !Exec(fuel, RootHeap(les), RootCtx, le).out.Hoisted?
  {
    hide Exec, P.OnTime;
    assert P.CtxOk(RootCtx) && P.HeapOk(RootHeap(les));
    P.ExecOk(fuel, RootHeap(les), RootCtx, le);
  }

  lemma OutcomeOf(W: Typing, out: LOutcome<LVal>, v: Outcome<Val>, w: Outcome<Val>)
    requires RelR(W, out, v) && Wk.OutSim(w, v)
    ensures out.Hoisted? || SameOutcome(out, w)
  {
    hide RelO, RelTs, FnRel, IdRel, Wk.EnvSim, Wk.ObjSim, Wk.ThunksSim;
  }

  lemma RootRel(xs: seq<string>, es: seq<Expr>)
    requires |xs| == |es|
    ensures CtxRel([Plain(Givens(es))], Link(RootScope(xs), Givens(es), RootView(|xs|)), RootCtx, Root(Idents(xs), Givens(es)))
  {
    forall n ensures n in RootScope(xs).ids ==> LastIndex(Idents(xs), n) == Some(RootScope(xs).ids[n]) {
      RootIds(Idents(xs), n);
    }
    assert LastIndex(Idents(xs), Dollar).None? by { assert Dollar !in Idents(xs); }
    RootIds(Idents(xs), Dollar);
  }

  lemma RootHeapOk(es: seq<Expr>, les: seq<LExpr>)
    requires |es| == |les| && forall i :: 0 <= i < |es| ==> Lowers(es[i], les[i], []) && Safe(les[i])
    ensures HeapOk(RootHeap(les), [Plain(Givens(es))])
  {
    hide Res, Safe;
    var W := [Plain(Givens(es))];
    forall a, j: nat, t | 0 <= a < |W| && TyHas(W[a], j, t) ensures CellOk(RootHeap(les), W, a, j, t) {
      var L := Link(RootScope([]), [], RootView(0));
      assert Idents([]) == [];
      assert CtxRel(W, L, RootCtx, Root([], []));
      assert Res(es[j], les[j], L.sc, L.v);
      assert RelT(W, LSusp(RootCtx, les[j]), Susp(Root([], []), es[j]));
    }
  }

  /** The arguments of a call are themselves compiled from safe sources. */
  ghost predicate ProbeCompiled(p: Probe, xs: seq<string>) {
    p.Call? ==>
      && |p.args| == |p.largs|
      && forall i :: 0 <= i < |p.args| ==> Compiled(p.args[i], p.largs[i], xs) && Grammatical(p.args[i]) && SafeProgram(p.args[i], xs)
  }

  lemma ProbeCompiledOk(p: Probe, xs: seq<string>)
    requires ProbeCompiled(p, xs)
    ensures ProbeOk(p, xs)
  {
    hide Res, Ordered, Safe, SafeSource, Grammatical, RootScope;
    if p.Call? {
      forall i | 0 <= i < |p.args| ensures Lowers(p.args[i], p.largs[i], xs) && Safe(p.largs[i]) {
        CompiledSafe(p.args[i], p.largs[i], xs);
      }
    }
  }

  /** From source to value: what the analyser makes of a safe program, run with what it makes of safe
      externals, means what the source means, however far one looks into the value. */
  lemma CompiledMeans(fuel: nat, e: Expr, le: LExpr, xs: seq<string>, es: seq<Expr>, les: seq<LExpr>, ps: seq<Probe>)
    requires |xs| == |es| == |les| && Compiled(e, le, xs) && Grammatical(e) && SafeProgram(e, xs)
    requires forall i :: 0 <= i < |es| ==> Compiled(es[i], les[i], []) && Grammatical(es[i]) && SafeProgram(es[i], [])
    requires forall i :: 0 <= i < |ps| ==> ProbeCompiled(ps[i], xs)
    ensures var out := Exec(fuel, RootHeap(les), RootCtx, LObserved(le, ps)).out;
            && (out.Hoisted? || SameOutcome(out, Eval(false, fuel, Root(Idents(xs), Givens(es)), Observed(e, ps))))
            && (P.OnTime(le) && (forall i :: 0 <= i < |les| ==> P.OnTime(les[i])) && (forall i :: 0 <= i < |ps| ==> ProbeOnTime(ps[i]))
                ==> !out.Hoisted?)
  {
    hide Res, Ordered, Exec, Eval, Safe, SafeSource, Grammatical, SameOutcome, P.OnTime, RootScope, ProbeCompiled, ProbeOk,
         LObserved, Observed, ProbeOnTime;
    CompiledSafe(e, le, xs);
    forall i | 0 <= i < |es| ensures Lowers(es[i], les[i], []) && Safe(les[i]) { CompiledSafe(es[i], les[i], []); }
    forall i | 0 <= i < |ps| ensures ProbeOk(ps[i], xs) { ProbeCompiledOk(ps[i], xs); }
    ClosureConversion(fuel, e, le, xs, es, les, ps);
  }
}
