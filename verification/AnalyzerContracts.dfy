/** The one contract all routines of the analyzer share, for every kind of syntax, and how the
    contract of a construct follows from those of its parts. */
module AnalyzerContracts {
  import opened Options
  import opened Syntax
  import opened Resolution
  import opened ResolutionLaws
  import opened CaptureStack
  import opened CaptureOrder
  import opened FirstUse
  import opened NameStacks
  import opened AnalyzerState
  import opened CaptureWalks
  import S = Siblings

  /** Everything analysing `e` promises. */
  ghost predicate Analyzed(s0: Snap, s1: Snap, e: Expr, le: LExpr, t0: S.Analysis, t1: S.Analysis)
    requires Good(s0) && Good(s1)
  {
    && Effect(s0, s1, FV(e), WF(e, Dom(s0)))
    && (WF(e, Dom(s0)) ==> Res(e, le, Sc(s0), Top(s1)))
    && Tainted(t0, t1, FreeIds(e, Sc(s0)), Own(e, NoObject(s0)), s1)
    && InTurn(s0, s1, e, le)
  }

  lemma NoTaint(t: S.Analysis, s: Snap)
    ensures Tainted(t, t, {}, false, s)
  {}

  lemma OwnNext(es: seq<Expr>, k: nat, top: bool)
    requires k < |es|
    ensures OwnSeq(es[..k + 1], top) == (OwnSeq(es[..k], top) || Own(es[k], top))
  {
    assert es[..k + 1][..k] == es[..k];
  }

  // ---------------------------------------------------------------- using a name

  /** A name is looked up: its slot reads its innermost binder, or it is unbound and that is an
      error. */
  ghost predicate Used(s0: Snap, s1: Snap, n: Name, s: Option<Slot>, t0: S.Analysis, t1: S.Analysis)
    requires Good(s0) && Good(s1)
  {
    && Effect(s0, s1, {n}, n in Dom(s0))
    && (s.Some? <==> n in Dom(s0))
    && (s.Some? ==> IdOf(Top(s1), s.value) == Some(Sc(s0).ids[n]) && Follows(s0, s1, [n]))
    && Tainted(t0, t1, IdsOf({n}, Sc(s0)), false, s1)
  }

  lemma UnboundUse(s0: Snap, s1: Snap, n: Name, t: S.Analysis)
    requires Good(s0) && n !in Dom(s0) && s1 == s0.(errored := true)
    ensures Good(s1) && Used(s0, s1, n, None, t, t)
  {
    GrownRefl(s0.frames, s0.caps);
    assert IdsOf({n}, Sc(s0)) == {};
    NoTaint(t, s1);
  }

  lemma BoundUse(s0: Snap, s1: Snap, n: Name, s: Option<Slot>, t0: S.Analysis, t1: S.Analysis)
    requires Good(s0) && Good(s1) && n in Dom(s0)
    requires SameDefs(s0.defs, s1.defs) && KeepsOuter(s0.defs, s1.defs, s0.depth)
    requires var id := Sc(s0).ids[n];
             && Grown(s0.frames, s0.caps, s1.frames, s1.caps, {id})
             && Resolved(s0.frames, s0.caps, s1.caps, id, |s0.frames| - 1)
             && s.Some? && IdOf(Top(s1), s.value) == Some(id)
             && id < |s0.defs| && Mentioned(t0, t1, s0.defs[id])
    requires s1.depth == s0.depth && s1.self == s0.self && s1.dollar == s0.dollar && s1.errored == s0.errored
    requires s1.selfUsed == (s0.selfUsed || (s0.self.Some? && n == Self))
    requires s1.superUsed == (s0.superUsed || (s0.self.Some? && n == Super))
    requires s1.dollarUsed == (s0.dollarUsed || (s0.dollar.Some? && n == Dollar))
    ensures Used(s0, s1, n, s, t0, t1)
  {
    hide FrameAt, Mentioned, KeepsOuter, Tainted;
    LiveId(s0, n);
    OneWalked(s0.frames, s0.caps, s1.caps, n, Sc(s0));
    MentionTaint(t0, t1, Sc(s0).ids[n], s0);
    SameTaint(t0, t1, {Sc(s0).ids[n]}, false, s0, s1);
  }

  lemma RefAnalyzed(s0: Snap, s1: Snap, n: Name, s: Option<Slot>, t0: S.Analysis, t1: S.Analysis)
    requires Good(s0) && Good(s1) && Used(s0, s1, n, s, t0, t1) && n != Super
    ensures Analyzed(s0, s1, Ref(n), if s.Some? then LSlot(s.value) else LBad, t0, t1)
  {
    hide Follows, StackOk, ScopeOf;
    NameTurn(s0, s1, n, if s.Some? then LSlot(s.value) else LBad);
  }

  // ---------------------------------------------------------------- sequences of expressions

  /** The first `k` expressions of `es` have been analysed into `les`. */
  ghost predicate SeqDone(s0: Snap, s1: Snap, es: seq<Expr>, les: seq<LExpr>, k: nat, t0: S.Analysis, t1: S.Analysis)
    requires Good(s0) && Good(s1) && k <= |es|
  {
    && |les| == k
    && Effect(s0, s1, FVs(es[..k]), forall j :: 0 <= j < k ==> WF(es[j], Dom(s0)))
    && (forall j :: 0 <= j < k && WF(es[j], Dom(s0)) ==> Res(es[j], les[j], Sc(s0), Top(s1)))
    && Tainted(t0, t1, IdsOf(FVs(es[..k]), Sc(s0)), OwnSeq(es[..k], NoObject(s0)), s1)
    && SeqInTurn(s0, s1, es, les, k)
  }

  lemma SeqStart(s: Snap, es: seq<Expr>, t: S.Analysis)
    requires Good(s)
    ensures SeqDone(s, s, es, [], 0, t, t)
  {
    hide SeqInTurn;
    EffectNone(s);
    NoTaint(t, s);
    assert es[..0] == [] && IdsOf({}, Sc(s)) == {};
    NoneInTurn(s, es);
  }

  lemma SeqStep(s0: Snap, s1: Snap, s2: Snap, es: seq<Expr>, les: seq<LExpr>, k: nat, le: LExpr,
                t0: S.Analysis, t1: S.Analysis, t2: S.Analysis)
    requires Good(s0) && Good(s1) && Good(s2) && k < |es|
    requires SeqDone(s0, s1, es, les, k, t0, t1) && Analyzed(s1, s2, es[k], le, t1, t2)
    ensures SeqDone(s0, s2, es, les + [le], k + 1, t0, t2)
  {
    hide Effect, Res, WF, Good, Tainted, SeqInTurn, InTurn;
    var done, all := FVs(es[..k]), FVs(es[..k + 1]);
    assert all == done + FV(es[k]) by { assert es[..k + 1][..k] == es[..k]; }
    var ok := forall j :: 0 <= j < k ==> WF(es[j], Dom(s0));
    EffectScope(s0, s1, done, ok);
    EffectTrans(s0, s1, s2, done, FV(es[k]), ok, WF(es[k], Dom(s0)));
    assert (ok && WF(es[k], Dom(s0))) == (forall j :: 0 <= j < k + 1 ==> WF(es[j], Dom(s0)));
    IdsOfUnion(done, FV(es[k]), Sc(s0));
    var top := NoObject(s0);
    TaintedStep(t0, t1, t2, IdsOf(done, Sc(s0)), FreeIds(es[k], Sc(s0)), OwnSeq(es[..k], top), Own(es[k], top), s1, s2, FV(es[k]),
                WF(es[k], Dom(s0)));
    OwnNext(es, k, top);
    EffectView(s1, s2, FV(es[k]), WF(es[k], Dom(s0)));
    SeqTurn(s0, s1, s2, es, les, k, le, done, FV(es[k]), ok, WF(es[k], Dom(s0)));
    forall j | 0 <= j < k + 1 && WF(es[j], Dom(s0)) ensures Res(es[j], (les + [le])[j], Sc(s0), Top(s2)) {
      if j < k { ResGrows(es[j], les[j], Sc(s0), Top(s1), Top(s2)); }
    }
  }

  /** As `Analyzed`, for an expression analysed in a closure of its own. */
  ghost predicate UseAnalyzed(s0: Snap, s1: Snap, e: Expr, le: LExpr, sh: Shape, t0: S.Analysis, t1: S.Analysis)
    requires Good(s0) && Good(s1)
  {
    && Effect(s0, s1, FV(e), WF(e, Dom(s0)))
    && (WF(e, Dom(s0)) ==> ResUse(e, le, sh, Sc(s0), Top(s1)))
    && Tainted(t0, t1, FreeIds(e, Sc(s0)), Own(e, NoObject(s0)), s1)
    && UseInTurn(s0, s1, e, le, sh)
  }

  ghost predicate UsesDone(s0: Snap, s1: Snap, es: seq<Expr>, ls: seq<Lowered>, k: nat, t0: S.Analysis, t1: S.Analysis)
    requires Good(s0) && Good(s1) && k <= |es|
  {
    && |ls| == k
    && Effect(s0, s1, FVs(es[..k]), forall j :: 0 <= j < k ==> WF(es[j], Dom(s0)))
    && (forall j :: 0 <= j < k && WF(es[j], Dom(s0)) ==> ResUse(es[j], ls[j].value, ls[j].shape, Sc(s0), Top(s1)))
    && Tainted(t0, t1, IdsOf(FVs(es[..k]), Sc(s0)), OwnSeq(es[..k], NoObject(s0)), s1)
    && UsesInTurn(s0, s1, es, ls, k)
  }

  lemma UsesStart(s: Snap, es: seq<Expr>, t: S.Analysis)
    requires Good(s)
    ensures UsesDone(s, s, es, [], 0, t, t)
  {
    hide UsesInTurn;
    EffectNone(s);
    NoTaint(t, s);
    assert es[..0] == [] && IdsOf({}, Sc(s)) == {};
    NoneInTurn(s, es);
  }

  lemma UsesStep(s0: Snap, s1: Snap, s2: Snap, es: seq<Expr>, ls: seq<Lowered>, k: nat, l: Lowered,
                 t0: S.Analysis, t1: S.Analysis, t2: S.Analysis)
    requires Good(s0) && Good(s1) && Good(s2) && k < |es|
    requires UsesDone(s0, s1, es, ls, k, t0, t1) && UseAnalyzed(s1, s2, es[k], l.value, l.shape, t1, t2)
    ensures UsesDone(s0, s2, es, ls + [l], k + 1, t0, t2)
  {
    hide Effect, ResUse, WF, Good, Tainted, UsesInTurn, UseInTurn;
    var done, all := FVs(es[..k]), FVs(es[..k + 1]);
    assert all == done + FV(es[k]) by { assert es[..k + 1][..k] == es[..k]; }
    var ok := forall j :: 0 <= j < k ==> WF(es[j], Dom(s0));
    EffectScope(s0, s1, done, ok);
    EffectTrans(s0, s1, s2, done, FV(es[k]), ok, WF(es[k], Dom(s0)));
    assert (ok && WF(es[k], Dom(s0))) == (forall j :: 0 <= j < k + 1 ==> WF(es[j], Dom(s0)));
    IdsOfUnion(done, FV(es[k]), Sc(s0));
    var top := NoObject(s0);
    TaintedStep(t0, t1, t2, IdsOf(done, Sc(s0)), FreeIds(es[k], Sc(s0)), OwnSeq(es[..k], top), Own(es[k], top), s1, s2, FV(es[k]),
                WF(es[k], Dom(s0)));
    OwnNext(es, k, top);
    EffectView(s1, s2, FV(es[k]), WF(es[k], Dom(s0)));
    UsesTurn(s0, s1, s2, es, ls, k, l, done, FV(es[k]), ok, WF(es[k], Dom(s0)));
    forall j | 0 <= j < k + 1 && WF(es[j], Dom(s0))
      ensures ResUse(es[j], (ls + [l])[j].value, (ls + [l])[j].shape, Sc(s0), Top(s2))
    {
      if j < k { ResUseGrows(es[j], ls[j].value, ls[j].shape, Sc(s0), Top(s1), Top(s2)); }
    }
  }

  lemma LocalDone(s0: Snap, s1: Snap, s2: Snap, e: Expr, lbs: seq<LBind>, lb: LExpr, t0: S.Analysis, t2: S.Analysis)
    requires e.Local? && e.binds != [] && Opened(s0, s1, Names(e.binds)) && Good(s2)
    requires Effect(s1, s2, FVBinds(e.binds) + FV(e.body), WFBinds(e.binds, Dom(s1)) && WF(e.body, Dom(s1)))
    requires Tainted(t0, t2, IdsOf(FVBinds(e.binds) + FV(e.body), Sc(s1)),
                     OwnBinds(e.binds, NoObject(s1)) || Own(e.body, NoObject(s1)), s2)
    requires Distinct(Names(e.binds)) && WFBinds(e.binds, Dom(s1)) ==> ResBinds(e.binds, lbs, Sc(s1), Top(s2), 0)
    requires WF(e.body, Dom(s1)) ==> Res(e.body, lb, Sc(s1), Top(s2))
    requires Good(s1) && LocalInTurn(s1, s2, e, lbs, lb)
    ensures s2.frames != [] && s2.caps != [] && |s0.defs| <= |s2.defs| && Good(Left(s0, s2))
    ensures Analyzed(s0, Left(s0, s2), e, LLocal(TopShape(s2), lbs, lb), t0, t2)
  {
    hide StackOk, ScopeOf, Grown, Tainted, Inside, KeepsOuter, Own, IdsOf, Distinct, FrameOk, EnterView, Res, ResBinds,
         WFBinds, LocalInTurn, InTurn;
    var ns, free := Names(e.binds), FVBinds(e.binds) + FV(e.body);
    assert FV(e) == free - NameSet(ns);
    var ok := WFBinds(e.binds, Dom(s1)) && WF(e.body, Dom(s1));
    assert WF(e, Dom(s0)) == (Distinct(ns) && ok);
    NamesAreIds(e.binds);
    LeaveEffect(s0, s1, s2, NameSet(ns), free, Distinct(ns), ok);
    LocalTaint(s0, s1, s2, e, free, ok, t0, t2);
    FrameShape(TopShape(s2), Top(Left(s0, s2)), IdsOf(free - NameSet(ns), Sc(s0)));
    LocalLeft(s0, s1, s2, e, lbs, lb, free, ok);
    if WF(e, Dom(s0)) { LocalRes(e, LLocal(TopShape(s2), lbs, lb), Sc(s0), Top(Left(s0, s2)), Sc(s1), Top(s2)); }
  }

  lemma FrameShape(sh: Shape, v: View, free: set<nat>)
    requires FrameOk(sh, v, free)
    ensures ShapeOk(sh, v)
  {}

  lemma LocalTaint(s0: Snap, s1: Snap, s2: Snap, e: Expr, free: set<Name>, ok: bool, t0: S.Analysis, t2: S.Analysis)
    requires e.Local? && Opened(s0, s1, Names(e.binds)) && Effect(s1, s2, free, ok) && free == FVBinds(e.binds) + FV(e.body)
    requires Tainted(t0, t2, IdsOf(free, Sc(s1)), OwnBinds(e.binds, NoObject(s1)) || Own(e.body, NoObject(s1)), s2)
    requires s2.frames != [] && s2.caps != [] && |s0.defs| <= |s2.defs|
    ensures Tainted(t0, t2, FreeIds(e, Sc(s0)), Own(e, NoObject(s0)), Left(s0, s2))
  {
    hide StackOk, ScopeOf, Grown, Tainted, Inside, Distinct, IdsOf, KeepsOuter, FrameFrom;
    OpenedFrom(s0, s1, Names(e.binds));
    LeaveTaint(s0, s1, s2, NameSet(Names(e.binds)), free, OwnBinds(e.binds, NoObject(s1)) || Own(e.body, NoObject(s1)), t0, t2,
               Left(s0, s2));
  }

  lemma FnTaint(s0: Snap, s1: Snap, s2: Snap, e: Expr, free: set<Name>, ok: bool, t0: S.Analysis, t2: S.Analysis)
    requires e.Fn? && Opened(s0, s1, ParamNames(e.params)) && Effect(s1, s2, free, ok) && free == FVParams(e.params) + FV(e.body)
    requires Tainted(t0, t2, IdsOf(free, Sc(s1)), OwnParams(e.params, NoObject(s1)) || Own(e.body, NoObject(s1)), s2)
    requires s2.frames != [] && s2.caps != [] && |s0.defs| <= |s2.defs|
    ensures Tainted(t0, t2, FreeIds(e, Sc(s0)), Own(e, NoObject(s0)), Left(s0, s2))
  {
    hide StackOk, ScopeOf, Grown, Tainted, Inside, Distinct, IdsOf, KeepsOuter, FrameFrom;
    OpenedFrom(s0, s1, ParamNames(e.params));
    LeaveTaint(s0, s1, s2, NameSet(ParamNames(e.params)), free, OwnParams(e.params, NoObject(s1)) || Own(e.body, NoObject(s1)), t0, t2,
               Left(s0, s2));
  }

  lemma FnDone(s0: Snap, s1: Snap, s2: Snap, e: Expr, lps: seq<LParam>, lb: LExpr, t0: S.Analysis, t2: S.Analysis)
    requires e.Fn? && Opened(s0, s1, ParamNames(e.params)) && Good(s2)
    requires Effect(s1, s2, FVParams(e.params) + FV(e.body), WFParams(e.params, Dom(s1)) && WF(e.body, Dom(s1)))
    requires Tainted(t0, t2, IdsOf(FVParams(e.params) + FV(e.body), Sc(s1)),
                     OwnParams(e.params, NoObject(s1)) || Own(e.body, NoObject(s1)), s2)
    requires Distinct(ParamNames(e.params)) && WFParams(e.params, Dom(s1)) ==> ResParams(e.params, lps, Sc(s1), Top(s2))
    requires WF(e.body, Dom(s1)) ==> Res(e.body, lb, Sc(s1), Top(s2))
    requires Good(s1) && FnInTurn(s1, s2, e, lps, lb)
    ensures s2.frames != [] && s2.caps != [] && |s0.defs| <= |s2.defs| && Good(Left(s0, s2))
    ensures Analyzed(s0, Left(s0, s2), e, if IsIdentity(lps, lb) then LIdentity else LFn(lps, TopShape(s2), lb), t0, t2)
  {
    hide StackOk, ScopeOf, Grown, Tainted, Inside, KeepsOuter, Own, IdsOf, Distinct, FrameOk, EnterView, Res, ResParams,
         WFParams, IsIdentity, FnInTurn, InTurn;
    var ns, free := ParamNames(e.params), FVParams(e.params) + FV(e.body);
    assert FV(e) == free - NameSet(ns);
    var ok := WFParams(e.params, Dom(s1)) && WF(e.body, Dom(s1));
    WFFn(e, Dom(s0), Dom(s1));
    assert NameSet(ns) !! SelfNames;
    LeaveEffect(s0, s1, s2, NameSet(ns), free, Distinct(ns), ok);
    FnTaint(s0, s1, s2, e, free, ok, t0, t2);
    FrameShape(TopShape(s2), Top(Left(s0, s2)), IdsOf(free - NameSet(ns), Sc(s0)));
    FnLeft(s0, s1, s2, e, lps, lb, free, ok);
    if WF(e, Dom(s0)) {
      var le := if IsIdentity(lps, lb) then LIdentity else LFn(lps, TopShape(s2), lb);
      FnRes(e, le, Sc(s0), Top(Left(s0, s2)), Sc(s1), Top(s2), TopShape(s2), lps, lb);
    }
  }

  /** A value analysed on its own, then merged into the taint of what contains it, and recorded. */
  lemma UseMerged(s0: Snap, s1: Snap, s2: Snap, e: Expr, le: LExpr, sh: Shape, t: S.Analysis, vt: S.Analysis)
    requires Good(s0) && Good(s1) && UseAnalyzed(s0, s1, e, le, sh, S.Nothing, vt)
    requires Touched(s1, s2)
    ensures Good(s2) && UseAnalyzed(s0, s2, e, le, sh, t, S.TaintBy(t, vt)) && NameMap(s2.defs) == NameMap(s1.defs)
  {
    hide Good, ScopeOf, Effect, Tainted, UseInTurn, ResUse, WF, FV, IdsOf, Top, Own;
    TouchedGood(s1, s2);
    TouchedEffect(s0, s1, s2, FV(e), WF(e, Dom(s0)));
    MergedTaint(vt, t, FreeIds(e, Sc(s0)), Own(e, NoObject(s0)), s1, s2);
    TurnTouched(s0, s1, s2, e, le, sh);
  }

  lemma UseFrameKept(s0: Snap, s1: Snap, e: Expr, le: LExpr, sh: Shape, t0: S.Analysis, t1: S.Analysis, first: nat)
    requires Good(s0) && Good(s1) && UseAnalyzed(s0, s1, e, le, sh, t0, t1) && FrameFrom(s0, first)
    ensures FrameFrom(s1, first)
  {
    hide Good, ResUse, Tainted, UseInTurn, FrameFrom;
    FrameKept(s0, s1, first, FV(e), WF(e, Dom(s0)));
  }

  lemma TurnTouched(s0: Snap, s1: Snap, s2: Snap, e: Expr, le: LExpr, sh: Shape)
    requires Good(s0) && Good(s1) && Good(s2) && UseInTurn(s0, s1, e, le, sh) && s2 == s1.(defs := s2.defs) && Top(s2) == Top(s1)
    ensures UseInTurn(s0, s2, e, le, sh)
  {
    hide Good, ScopeOf, WF, Top, Walked, OrderedUse;
  }

  lemma NoValue(s: Snap, t: S.Analysis)
    requires Good(s)
    ensures UseAnalyzed(s, s, NoDefault, LLit(Null), Shape([], 0), S.Nothing, S.Nothing)
    ensures UseAnalyzed(s, s, NoDefault, LLit(Null), Shape([], 0), t, S.TaintBy(t, S.Nothing))
  {
    hide UseInTurn;
    EffectNone(s);
    NoDefaultTurn(s);
  }

  lemma UseDone(s0: Snap, s1: Snap, e: Expr, le: LExpr, t0: S.Analysis, t1: S.Analysis)
    requires Good(s0) && Good(PushedUse(s0)) && Sc(PushedUse(s0)) == Sc(s0) && Good(s1)
    requires Analyzed(PushedUse(s0), s1, e, le, t0, t1)
    ensures s1.frames != [] && s1.caps != [] && Good(Popped(s1)) && UseAnalyzed(s0, Popped(s1), e, le, TopShape(s1), t0, t1)
  {
    hide StackOk, ScopeOf, Grown, Tainted, Res, WF, FV, Effect, CapsOnly, ShapeOk, InTurn, UseInTurn;
    PopUse(s0, s1, FV(e), WF(e, Dom(s0)));
    UseTurn(s0, s1, e, le);
    PoppedTaint(t0, t1, FreeIds(e, Sc(s0)), Own(e, NoObject(s0)), s1);
  }

  lemma PoppedTaint(t0: S.Analysis, t1: S.Analysis, ids: set<nat>, own: bool, s: Snap)
    requires Tainted(t0, t1, ids, own, s) && s.frames != [] && s.caps != []
    ensures Tainted(t0, t1, ids, own, Popped(s))
  {}

  lemma ArrDone(s0: Snap, s1: Snap, e: Expr, les: seq<LExpr>, t0: S.Analysis, t1: S.Analysis)
    requires Good(s0) && Good(PushedUse(s0)) && Sc(PushedUse(s0)) == Sc(s0) && Good(s1)
    requires e.Arr? && !AllTrivial(e.items) && SeqDone(PushedUse(s0), s1, e.items, les, |e.items|, t0, t1)
    ensures s1.frames != [] && s1.caps != [] && Good(Popped(s1))
    ensures Analyzed(s0, Popped(s1), e, LArr(TopShape(s1), les), t0, t1)
  {
    hide StackOk, ScopeOf, Grown, Tainted, Effect, CapsOnly, ShapeOk, Res, InTurn, SeqInTurn;
    var ok := forall j :: 0 <= j < |e.items| ==> WF(e.items[j], Dom(s0));
    assert e.items[..|e.items|] == e.items;
    assert FV(e) == FVs(e.items) && WF(e, Dom(s0)) == ok;
    PopUse(s0, s1, FV(e), ok);
    ArrTurn(s0, s1, e, les, ok);
    PoppedTaint(t0, t1, FreeIds(e, Sc(s0)), Own(e, NoObject(s0)), s1);
    if ok { ArrRes(e, LArr(TopShape(s1), les), Sc(s0), Top(Popped(s1))); }
  }

  lemma NodeDone(s0: Snap, s1: Snap, e: Expr, les: seq<LExpr>, t0: S.Analysis, t1: S.Analysis)
    requires Good(s0) && Good(s1) && e.Node? && SeqDone(s0, s1, e.kids, les, |e.kids|, t0, t1)
    ensures Analyzed(s0, s1, e, LNode(e.op, les), t0, t1)
  {
    hide StackOk, ScopeOf, Grown, Tainted, Effect, InTurn, SeqInTurn;
    assert e.kids[..|e.kids|] == e.kids;
    NodeTurn(s0, s1, e, les);
    assert FV(e) == FVs(e.kids);
    assert WF(e, Dom(s0)) == forall j :: 0 <= j < |e.kids| ==> WF(e.kids[j], Dom(s0));
  }

  lemma ConstDone(s: Snap, e: Expr, t: S.Analysis)
    requires Good(s) && e.Arr? && AllTrivial(e.items)
    ensures Analyzed(s, s, e, LArrConst(Trivials(e.items)), t, t)
  {
    hide InTurn, StackOk, ScopeOf, Near;
    ConstFree(e.items);
    EffectNone(s);
    QuietTurn(s, s, e, LArrConst(Trivials(e.items)));
    OwnTrivial(e.items, NoObject(s));
    NoTaint(t, s);
    assert FV(e) == {} && WF(e, Dom(s));
    assert IdsOf({}, Sc(s)) == {};
  }

  lemma LitDone(s: Snap, e: Expr, t: S.Analysis)
    requires Good(s) && e.Lit?
    ensures Analyzed(s, s, e, LLit(e.v), t, t)
  {
    hide InTurn;
    EffectNone(s);
    QuietTurn(s, s, e, LLit(e.v));
  }

  lemma SuperDone(s0: Snap, s1: Snap, f: string, t0: S.Analysis, t1: S.Analysis)
    requires Good(s0) && Good(s1)
    requires if s0.self.Some?
             then Effect(s0, s1, {Super}, true) && Tainted(t0, t1, IdsOf({Super}, Sc(s0)), false, s1)
             else s1 == s0.(errored := true) && t1 == t0
    requires s1.caps == s0.caps
    ensures Analyzed(s0, s1, SuperField(f), if s0.self.Some? then LSuperField(f) else LBad, t0, t1)
  {
    hide InTurn;
    QuietTurn(s0, s1, SuperField(f), if s0.self.Some? then LSuperField(f) else LBad);
    OnlyObjectNames(s0);
    GrownRefl(s0.frames, s0.caps);
  }

  /** Everything analysing the values of a group of binders leaves: with distinct names, one value
      per binder, stored in the slots from `off` on. */
  ghost predicate BindsDone(s0: Snap, s1: Snap, bs: seq<Bind>, lbs: seq<LBind>, off: nat, t0: S.Analysis, t1: S.Analysis)
    requires Good(s0) && Good(s1)
  {
    && Effect(s0, s1, FVBinds(bs), WFBinds(bs, Dom(s0)))
    && (Distinct(Names(bs)) && WFBinds(bs, Dom(s0)) ==> ResBinds(bs, lbs, Sc(s0), Top(s1), off))
    && Tainted(t0, t1, IdsOf(FVBinds(bs), Sc(s0)), OwnBinds(bs, NoObject(s0)), s1)
    && BindsInTurn(s0, s1, bs, lbs)
  }

  lemma UsesAreBinds(s0: Snap, s1: Snap, bs: seq<Bind>, ls: seq<Lowered>, lbs: seq<LBind>, off: nat,
                     t0: S.Analysis, t1: S.Analysis)
    requires Good(s0) && Good(s1) && UsesDone(s0, s1, Values(bs), ls, |bs|, t0, t1)
    requires Distinct(Names(bs)) ==> |lbs| == |bs| && forall j :: 0 <= j < |bs| ==> lbs[j] == LBind(off + j, ls[j].shape, ls[j].value)
    ensures BindsDone(s0, s1, bs, lbs, off, t0, t1)
  {
    hide StackOk, ScopeOf, Grown, Tainted, Effect, ResUse, Distinct, UsesInTurn, BindsInTurn;
    BindsTurn(s0, s1, bs, ls, lbs, off);
    FreeValues(bs);
    OwnValues(bs, NoObject(s0));
    assert Values(bs)[..|bs|] == Values(bs);
    assert WFBinds(bs, Dom(s0)) == forall j :: 0 <= j < |bs| ==> WF(Values(bs)[j], Dom(s0));
  }

  lemma {:induction false} OwnValues(bs: seq<Bind>, top: bool)
    ensures OwnBinds(bs, top) == OwnSeq(Values(bs), top)
    decreases |bs|
  {
    if bs != [] {
      OwnValues(bs[..|bs| - 1], top);
      assert Values(bs)[..|bs| - 1] == Values(bs[..|bs| - 1]);
    }
  }

  lemma {:induction false} OwnDefaults(ps: seq<Param>, top: bool)
    ensures OwnParams(ps, top) == OwnSeq(Defaults(ps), top)
    decreases |ps|
  {
    if ps != [] {
      OwnDefaults(ps[..|ps| - 1], top);
      assert Defaults(ps)[..|ps| - 1] == Defaults(ps[..|ps| - 1]);
    }
  }

  ghost predicate FieldsDone(s0: Snap, s1: Snap, fs: seq<Bind>, lfs: seq<LField>, t0: S.Analysis, t1: S.Analysis)
    requires Good(s0) && Good(s1)
  {
    && Effect(s0, s1, FVBinds(fs), WFBinds(fs, Dom(s0)))
    && (WFBinds(fs, Dom(s0)) ==> ResFields(fs, lfs, Sc(s0), Top(s1)))
    && Tainted(t0, t1, IdsOf(FVBinds(fs), Sc(s0)), OwnBinds(fs, NoObject(s0)), s1)
    && FieldsInTurn(s0, s1, fs, lfs)
  }

  ghost predicate LoweredFields(fs: seq<Bind>, ls: seq<Lowered>, lfs: seq<LField>, i: nat) {
    |ls| == |lfs| == i <= |fs| && forall j :: 0 <= j < i ==> lfs[j] == LField(fs[j].name, ls[j].shape, ls[j].value)
  }

  ghost predicate SomeFields(s0: Snap, s1: Snap, fs: seq<Bind>, ls: seq<Lowered>, lfs: seq<LField>, i: nat,
                             t0: S.Analysis, t1: S.Analysis)
    requires Good(s0) && Good(s1)
  {
    i <= |fs| && LoweredFields(fs, ls, lfs, i) && UsesDone(s0, s1, Values(fs), ls, i, t0, t1)
  }

  lemma NoFieldsYet(s: Snap, fs: seq<Bind>, t: S.Analysis)
    requires Good(s)
    ensures SomeFields(s, s, fs, [], [], 0, t, t)
  {
    UsesStart(s, Values(fs), t);
  }

  lemma NextFieldResolvable(s0: Snap, s1: Snap, fs: seq<Bind>, ls: seq<Lowered>, lfs: seq<LField>, i: nat,
                            t0: S.Analysis, t1: S.Analysis)
    requires Good(s0) && Good(s1) && i < |fs| && SomeFields(s0, s1, fs, ls, lfs, i, t0, t1)
    requires Resolvable(s0, IdsOf(FVBinds(fs), Sc(s0)))
    ensures Resolvable(s1, FreeIds(fs[i].value, Sc(s1)))
  {
    FreeValues(fs);
    UsesResolvable(s0, s1, Values(fs), ls, i, t0, t1);
  }

  lemma FieldStep(s0: Snap, s1: Snap, s2: Snap, fs: seq<Bind>, ls: seq<Lowered>, lfs: seq<LField>, i: nat, l: Lowered,
                  t0: S.Analysis, t1: S.Analysis, t2: S.Analysis)
    requires Good(s0) && Good(s1) && Good(s2) && i < |fs| && SomeFields(s0, s1, fs, ls, lfs, i, t0, t1)
    requires UseAnalyzed(s1, s2, fs[i].value, l.value, l.shape, t1, t2)
    ensures SomeFields(s0, s2, fs, ls + [l], lfs + [LField(fs[i].name, l.shape, l.value)], i + 1, t0, t2)
  {
    hide UseAnalyzed, UsesDone;
    UsesStep(s0, s1, s2, Values(fs), ls, i, l, t0, t1, t2);
  }

  lemma FieldsAre(s0: Snap, s1: Snap, fs: seq<Bind>, ls: seq<Lowered>, lfs: seq<LField>, t0: S.Analysis, t1: S.Analysis)
    requires Good(s0) && Good(s1) && SomeFields(s0, s1, fs, ls, lfs, |fs|, t0, t1)
    ensures FieldsDone(s0, s1, fs, lfs, t0, t1)
  {
    hide StackOk, ScopeOf, Grown, Tainted, Effect, ResUse, UsesInTurn, FieldsInTurn;
    FieldsTurn(s0, s1, fs, ls, lfs);
    FreeValues(fs);
    OwnValues(fs, NoObject(s0));
    assert Values(fs)[..|fs|] == Values(fs);
    assert WFBinds(fs, Dom(s0)) == forall j :: 0 <= j < |fs| ==> WF(Values(fs)[j], Dom(s0));
  }

  ghost predicate ParamsDone(s0: Snap, s1: Snap, ps: seq<Param>, lps: seq<LParam>, t0: S.Analysis, t1: S.Analysis)
    requires Good(s0) && Good(s1)
  {
    && Effect(s0, s1, FVParams(ps), WFParams(ps, Dom(s0)))
    && (Distinct(ParamNames(ps)) && WFParams(ps, Dom(s0)) ==> ResParams(ps, lps, Sc(s0), Top(s1)))
    && Tainted(t0, t1, IdsOf(FVParams(ps), Sc(s0)), OwnParams(ps, NoObject(s0)), s1)
    && ParamsInTurn(s0, s1, ps, lps)
  }

  lemma UsesAreParams(s0: Snap, s1: Snap, ps: seq<Param>, ls: seq<Lowered>, lps: seq<LParam>, t0: S.Analysis, t1: S.Analysis)
    requires Good(s0) && Good(s1) && UsesDone(s0, s1, Defaults(ps), ls, |ps|, t0, t1)
    requires Distinct(ParamNames(ps)) ==> |lps| == |ps| && forall j :: 0 <= j < |ps| ==> lps[j] == LoweredParam(ps[j], j, ls[j])
    ensures ParamsDone(s0, s1, ps, lps, t0, t1)
  {
    hide StackOk, ScopeOf, Grown, Tainted, Effect, ResUse, Distinct, UsesInTurn, ParamsInTurn;
    ParamsTurn(s0, s1, ps, ls, lps);
    FreeDefaults(ps);
    OwnDefaults(ps, NoObject(s0));
    assert Defaults(ps)[..|ps|] == Defaults(ps);
    assert WFParams(ps, Dom(s0)) == forall j :: 0 <= j < |ps| ==> WF(Defaults(ps)[j], Dom(s0)) by {
      forall j | 0 <= j < |ps| ensures WFParam(ps[j], Dom(s0)) == WF(Defaults(ps)[j], Dom(s0)) {}
    }
  }

  lemma SeqResolvable(s0: Snap, s1: Snap, es: seq<Expr>, les: seq<LExpr>, k: nat, t0: S.Analysis, t1: S.Analysis)
    requires Good(s0) && Good(s1) && k < |es| && SeqDone(s0, s1, es, les, k, t0, t1)
    requires Resolvable(s0, IdsOf(FVs(es), Sc(s0)))
    ensures Resolvable(s1, FreeIds(es[k], Sc(s1)))
  {
    NextResolvable(s0, s1, es, k, forall j :: 0 <= j < k ==> WF(es[j], Dom(s0)));
  }

  lemma UsesResolvable(s0: Snap, s1: Snap, es: seq<Expr>, ls: seq<Lowered>, k: nat, t0: S.Analysis, t1: S.Analysis)
    requires Good(s0) && Good(s1) && k < |es| && UsesDone(s0, s1, es, ls, k, t0, t1)
    requires Resolvable(s0, IdsOf(FVs(es), Sc(s0)))
    ensures Resolvable(s1, FreeIds(es[k], Sc(s1)))
  {
    NextResolvable(s0, s1, es, k, forall j :: 0 <= j < k ==> WF(es[j], Dom(s0)));
  }

  /** With distinct names, every value so far has been stored in the slot of its binder. */
  ghost predicate LoweredBinds(slots: seq<Option<nat>>, off: nat, ls: seq<Lowered>, lbs: seq<LBind>, i: nat) {
    && |ls| == i <= |slots|
    && (AllNumbered(slots, off) ==>
          |lbs| == i && forall j :: 0 <= j < i ==> lbs[j] == LBind(off + j, ls[j].shape, ls[j].value))
  }

  ghost predicate SomeBinds(s0: Snap, s1: Snap, bs: seq<Bind>, slots: seq<Option<nat>>, off: nat, ls: seq<Lowered>,
                            lbs: seq<LBind>, i: nat, t0: S.Analysis, t1: S.Analysis)
    requires Good(s0) && Good(s1)
  {
    i <= |bs| && LoweredBinds(slots, off, ls, lbs, i) && UsesDone(s0, s1, Values(bs), ls, i, t0, t1)
  }

  lemma NoBindsYet(s: Snap, bs: seq<Bind>, slots: seq<Option<nat>>, off: nat, t: S.Analysis)
    requires Good(s)
    ensures SomeBinds(s, s, bs, slots, off, [], [], 0, t, t)
  {
    UsesStart(s, Values(bs), t);
  }

  lemma NextBindResolvable(s0: Snap, s1: Snap, bs: seq<Bind>, slots: seq<Option<nat>>, off: nat, ls: seq<Lowered>,
                           lbs: seq<LBind>, i: nat, t0: S.Analysis, t1: S.Analysis)
    requires Good(s0) && Good(s1) && i < |bs| && SomeBinds(s0, s1, bs, slots, off, ls, lbs, i, t0, t1)
    requires Resolvable(s0, IdsOf(FVBinds(bs), Sc(s0)))
    ensures Resolvable(s1, FreeIds(bs[i].value, Sc(s1)))
  {
    FreeValues(bs);
    UsesResolvable(s0, s1, Values(bs), ls, i, t0, t1);
  }

  lemma BindStep(s0: Snap, s1: Snap, s2: Snap, bs: seq<Bind>, slots: seq<Option<nat>>, off: nat, ls: seq<Lowered>,
                 lbs: seq<LBind>, i: nat, l: Lowered, t0: S.Analysis, t1: S.Analysis, t2: S.Analysis)
    requires Good(s0) && Good(s1) && Good(s2) && i < |bs| == |slots|
    requires SomeBinds(s0, s1, bs, slots, off, ls, lbs, i, t0, t1)
    requires UseAnalyzed(s1, s2, bs[i].value, l.value, l.shape, t1, t2)
    ensures SomeBinds(s0, s2, bs, slots, off, ls + [l],
                      if slots[i].Some? then lbs + [LBind(slots[i].value, l.shape, l.value)] else lbs, i + 1, t0, t2)
  {
    hide UseAnalyzed, UsesDone;
    UsesStep(s0, s1, s2, Values(bs), ls, i, l, t0, t1, t2);
  }

  lemma BindsAre(s0: Snap, s1: Snap, bs: seq<Bind>, slots: seq<Option<nat>>, off: nat, total: nat, ls: seq<Lowered>,
                 lbs: seq<LBind>, t0: S.Analysis, t1: S.Analysis)
    requires Good(s0) && Good(s1) && SomeBinds(s0, s1, bs, slots, off, ls, lbs, |bs|, t0, t1)
    requires Slots(slots, Names(bs), off, total)
    ensures BindsDone(s0, s1, bs, lbs, off, t0, t1)
  {
    hide UsesDone, BindsDone;
    UsesAreBinds(s0, s1, bs, ls, lbs, off, t0, t1);
  }

  ghost predicate LoweredParams(ps: seq<Param>, slots: seq<Option<nat>>, ls: seq<Lowered>, lps: seq<LParam>, i: nat) {
    && |ls| == i <= |slots| == |ps|
    && (AllNumbered(slots, 0) ==> |lps| == i && forall j :: 0 <= j < i ==> lps[j] == LoweredParam(ps[j], j, ls[j]))
  }

  ghost predicate SomeParams(s0: Snap, s1: Snap, ps: seq<Param>, slots: seq<Option<nat>>, ls: seq<Lowered>,
                             lps: seq<LParam>, i: nat, t0: S.Analysis, t1: S.Analysis)
    requires Good(s0) && Good(s1)
  {
    i <= |ps| && LoweredParams(ps, slots, ls, lps, i) && UsesDone(s0, s1, Defaults(ps), ls, i, t0, t1)
  }

  lemma NoParamsYet(s: Snap, ps: seq<Param>, slots: seq<Option<nat>>, t: S.Analysis)
    requires Good(s) && |slots| == |ps|
    ensures SomeParams(s, s, ps, slots, [], [], 0, t, t)
  {
    UsesStart(s, Defaults(ps), t);
  }

  lemma NextParamResolvable(s0: Snap, s1: Snap, ps: seq<Param>, slots: seq<Option<nat>>, ls: seq<Lowered>, lps: seq<LParam>,
                            i: nat, t0: S.Analysis, t1: S.Analysis)
    requires Good(s0) && Good(s1) && i < |ps| && SomeParams(s0, s1, ps, slots, ls, lps, i, t0, t1)
    requires Resolvable(s0, IdsOf(FVParams(ps), Sc(s0)))
    ensures Resolvable(s1, FreeIds(ps[i].default.GetOr(NoDefault), Sc(s1)))
  {
    FreeDefaults(ps);
    UsesResolvable(s0, s1, Defaults(ps), ls, i, t0, t1);
  }

  lemma ParamStep(s0: Snap, s1: Snap, s2: Snap, ps: seq<Param>, slots: seq<Option<nat>>, ls: seq<Lowered>, lps: seq<LParam>,
                  i: nat, l: Lowered, t0: S.Analysis, t1: S.Analysis, t2: S.Analysis)
    requires Good(s0) && Good(s1) && Good(s2) && i < |ps| == |slots|
    requires SomeParams(s0, s1, ps, slots, ls, lps, i, t0, t1)
    requires UseAnalyzed(s1, s2, ps[i].default.GetOr(NoDefault), l.value, l.shape, t1, t2)
    ensures SomeParams(s0, s2, ps, slots, ls + [l],
                       if slots[i].Some? then lps + [LoweredParam(ps[i], slots[i].value, l)] else lps, i + 1, t0, t2)
  {
    hide UseAnalyzed, UsesDone;
    UsesStep(s0, s1, s2, Defaults(ps), ls, i, l, t0, t1, t2);
  }

  lemma ParamsAre(s0: Snap, s1: Snap, ps: seq<Param>, slots: seq<Option<nat>>, total: nat, ls: seq<Lowered>,
                  lps: seq<LParam>, t0: S.Analysis, t1: S.Analysis)
    requires Good(s0) && Good(s1) && SomeParams(s0, s1, ps, slots, ls, lps, |ps|, t0, t1)
    requires Slots(slots, ParamNames(ps), 0, total)
    ensures ParamsDone(s0, s1, ps, lps, t0, t1)
  {
    hide UsesDone, ParamsDone;
    UsesAreParams(s0, s1, ps, ls, lps, t0, t1);
  }

  lemma UseKeeps(s0: Snap, s1: Snap, e: Expr, le: LExpr, sh: Shape, t0: S.Analysis, t1: S.Analysis)
    requires Good(s0) && Good(s1) && UseAnalyzed(s0, s1, e, le, sh, t0, t1)
    ensures |s1.defs| == |s0.defs|
  {}

  lemma BodyResolvable(s1: Snap, sA: Snap, sB: Snap, ns: set<Name>, ok: bool, body: Expr)
    requires Good(s1) && Good(sA) && Effect(s1, sA, ns, ok) && Resolvable(s1, FreeIds(body, Sc(s1))) && SettledFrom(sA, sB)
    ensures Good(sB) && Resolvable(sB, FreeIds(body, Sc(sB)))
  {
    PartResolvable(s1, sA, sB, ns, ok, FV(body));
  }

  /** The frame of a `local`, seen from its own depth, once the body has been analysed. */
  lemma LocalBody(s1: Snap, sA: Snap, sB: Snap, sC: Snap, e: Expr, lbs: seq<LBind>, lb: LExpr,
                  t0: S.Analysis, t1: S.Analysis, t2: S.Analysis)
    requires e.Local? && Good(s1) && Good(sA) && Good(sB) && Good(sC)
    requires BindsDone(s1, sA, e.binds, lbs, 0, t0, t1) && SettledFrom(sA, sB) && Analyzed(sB, sC, e.body, lb, t1, t2)
    ensures var s2, a, b := sC.(depth := s1.depth), FVBinds(e.binds), FV(e.body);
            && Good(s2) && Effect(s1, s2, a + b, WFBinds(e.binds, Dom(s1)) && WF(e.body, Dom(s1)))
            && Tainted(t0, t2, IdsOf(a + b, Sc(s1)), OwnBinds(e.binds, NoObject(s1)) || Own(e.body, NoObject(s1)), s2)
            && (Distinct(Names(e.binds)) && WFBinds(e.binds, Dom(s1)) ==> ResBinds(e.binds, lbs, Sc(s1), Top(s2), 0))
            && (WF(e.body, Dom(s1)) ==> Res(e.body, lb, Sc(s1), Top(s2)))
            && LocalInTurn(s1, s2, e, lbs, lb)
  {
    hide StackOk, ScopeOf, Grown, Tainted, WF, WFBinds, FV, FVBinds, Res, ResBinds, IdsOf, Near, Distinct, InTurn, BindsInTurn,
         LocalInTurn;
    var a, b := FVBinds(e.binds), FV(e.body);
    SettledScope(sA, sB);
    EffectScope(s1, sA, a, WFBinds(e.binds, Dom(s1)));
    BodyEffect(s1, sA, sB, sC, a, b, WFBinds(e.binds, Dom(s1)), WF(e.body, Dom(s1)));
    TwoTaints(t0, t1, t2, a, b, OwnBinds(e.binds, NoObject(s1)), Own(e.body, NoObject(s1)), Sc(s1), sA, sB, sC, b, WF(e.body, Dom(s1)));
    LocalTurn(s1, sA, sB, sC, e, lbs, lb, a, b, WFBinds(e.binds, Dom(s1)), WF(e.body, Dom(s1)));
    if Distinct(Names(e.binds)) && WFBinds(e.binds, Dom(s1)) {
      ResBindsGrows(e.binds, lbs, Sc(s1), Top(sA), Top(sC), 0);
    }
  }

  lemma FnBody(s1: Snap, sA: Snap, sB: Snap, sC: Snap, e: Expr, lps: seq<LParam>, lb: LExpr,
               t0: S.Analysis, t1: S.Analysis, t2: S.Analysis)
    requires e.Fn? && Good(s1) && Good(sA) && Good(sB) && Good(sC)
    requires ParamsDone(s1, sA, e.params, lps, t0, t1) && SettledFrom(sA, sB) && Analyzed(sB, sC, e.body, lb, t1, t2)
    ensures var s2, a, b := sC.(depth := s1.depth), FVParams(e.params), FV(e.body);
            && Good(s2) && Effect(s1, s2, a + b, WFParams(e.params, Dom(s1)) && WF(e.body, Dom(s1)))
            && Tainted(t0, t2, IdsOf(a + b, Sc(s1)), OwnParams(e.params, NoObject(s1)) || Own(e.body, NoObject(s1)), s2)
            && (Distinct(ParamNames(e.params)) && WFParams(e.params, Dom(s1)) ==> ResParams(e.params, lps, Sc(s1), Top(s2)))
            && (WF(e.body, Dom(s1)) ==> Res(e.body, lb, Sc(s1), Top(s2)))
            && FnInTurn(s1, s2, e, lps, lb)
  {
    hide StackOk, ScopeOf, Grown, Tainted, WF, WFParams, FV, FVParams, Res, ResParams, IdsOf, Near, Distinct, InTurn,
         ParamsInTurn, FnInTurn;
    var a, b := FVParams(e.params), FV(e.body);
    SettledScope(sA, sB);
    EffectScope(s1, sA, a, WFParams(e.params, Dom(s1)));
    BodyEffect(s1, sA, sB, sC, a, b, WFParams(e.params, Dom(s1)), WF(e.body, Dom(s1)));
    TwoTaints(t0, t1, t2, a, b, OwnParams(e.params, NoObject(s1)), Own(e.body, NoObject(s1)), Sc(s1), sA, sB, sC, b, WF(e.body, Dom(s1)));
    FnTurn(s1, sA, sB, sC, e, lps, lb, a, b, WFParams(e.params, Dom(s1)), WF(e.body, Dom(s1)));
    if Distinct(ParamNames(e.params)) && WFParams(e.params, Dom(s1)) {
      ResParamsGrows(e.params, lps, Sc(s1), Top(sA), Top(sC));
    }
  }

  /** Facts about the innermost state of a frame that closing it needs. */
  lemma ReadyToClose(s0: Snap, s1: Snap, sC: Snap, ns: seq<Name>, free: set<Name>, ok: bool)
    requires Opened(s0, s1, ns) && Good(sC) && Effect(s1, sC.(depth := s1.depth), free, ok)
    ensures |s0.defs| <= |sC.defs| && sC.frames != [] && sC.caps != []
    ensures sC.self == s0.self && sC.dollar == s0.dollar && s1.depth == s0.depth
    ensures forall i :: |s0.defs| <= i < |sC.defs| ==> sC.defs[i].name.Some?
  {
    hide Near, ScopeOf;
    NonEmpty(sC);
  }

  lemma BindsEffect(s0: Snap, s1: Snap, bs: seq<Bind>, lbs: seq<LBind>, off: nat, t0: S.Analysis, t1: S.Analysis)
    requires Good(s0) && Good(s1) && BindsDone(s0, s1, bs, lbs, off, t0, t1)
    ensures Effect(s0, s1, FVBinds(bs), WFBinds(bs, Dom(s0)))
  {}

  lemma BodyDepth(s1: Snap, sA: Snap, sB: Snap, sC: Snap, e: Expr, le: LExpr, ns: set<Name>, ok: bool,
                  t1: S.Analysis, t2: S.Analysis)
    requires Good(s1) && Good(sA) && Effect(s1, sA, ns, ok) && SettledFrom(sA, sB) && Good(sB) && Good(sC)
    requires Analyzed(sB, sC, e, le, t1, t2)
    ensures sC.depth == s1.depth + 1
  {}

  lemma ParamsEffect(s0: Snap, s1: Snap, ps: seq<Param>, lps: seq<LParam>, t0: S.Analysis, t1: S.Analysis)
    requires Good(s0) && Good(s1) && ParamsDone(s0, s1, ps, lps, t0, t1)
    ensures Effect(s0, s1, FVParams(ps), WFParams(ps, Dom(s0)))
  {}

  /** A `local` without bindings is its body. */
  lemma NoBindsDone(s0: Snap, s1: Snap, e: Expr, le: LExpr, t0: S.Analysis, t1: S.Analysis)
    requires e.Local? && e.binds == [] && Good(s0) && Good(s1) && Analyzed(s0, s1, e.body, le, t0, t1)
    ensures Analyzed(s0, s1, e, le, t0, t1)
  {
    hide StackOk, ScopeOf, Grown, Tainted, Near, FV, WF, InTurn;
    NoBinds(e, Sc(s0));
    NoBindsTurn(s0, s1, e, le);
    OwnNoBinds(e, NoObject(s0));
  }

  lemma OwnNoBinds(e: Expr, top: bool)
    requires e.Local? && e.binds == []
    ensures Own(e, top) == Own(e.body, top)
  {
    assert NameSet(Names(e.binds)) == {};
  }

  /** `super` on its own. */
  lemma SuperAlone(s0: Snap, s1: Snap, t0: S.Analysis, t1: S.Analysis)
    requires Good(s0) && Good(s1)
    requires if s0.self.Some?
             then Effect(s0, s1, {Super}, true) && Tainted(t0, t1, IdsOf({Super}, Sc(s0)), false, s1)
             else s1 == s0.(errored := true) && t1 == t0
    requires s1.caps == s0.caps
    ensures Analyzed(s0, s1, Ref(Super), if s0.self.Some? then LSuper else LBad, t0, t1)
  {
    hide InTurn;
    QuietTurn(s0, s1, Ref(Super), if s0.self.Some? then LSuper else LBad);
    OnlyObjectNames(s0);
    GrownRefl(s0.frames, s0.caps);
  }
}
