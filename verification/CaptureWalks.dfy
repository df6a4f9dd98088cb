/** What each part of an analysis captures, and that the lowered code it leaves behind captures in
    walking order: one predicate for every kind of syntax, next to the one about resolution. */
module CaptureWalks {
  import opened Options
  import opened Syntax
  import opened Resolution
  import opened ResolutionLaws
  import opened CaptureStack
  import opened CaptureOrder
  import opened FirstUse
  import opened NameStacks
  import opened AnalyzerState

  /** The frames have captured the mentions `us`, in turn. */
  ghost predicate Follows(s0: Snap, s1: Snap, us: seq<Name>)
    requires Good(s0)
  {
    Walked(s0.frames, s0.caps, s1.caps, us, Sc(s0))
  }

  lemma FollowsNone(s: Snap, s': Snap)
    requires Good(s) && s'.caps == s.caps
    ensures Follows(s, s', [])
  {
    hide FrameAt;
    NotWalked(s.frames, s.caps, Sc(s));
  }

  lemma FollowsOn(s0: Snap, s1: Snap, s2: Snap, a: seq<Name>, b: seq<Name>, ns: set<Name>, ok: bool)
    requires Good(s0) && Good(s1) && Effect(s0, s1, ns, ok) && Follows(s0, s1, a) && Follows(s1, s2, b)
    ensures Follows(s0, s2, a + b)
  {
    hide FrameAt, Walked, Grown, ScopeOf;
    EffectScope(s0, s1, ns, ok);
    WalkedOn(s0.frames, s0.caps, s1.frames, s1.caps, s2.caps, a, b, Sc(s0), IdsOf(ns, Sc(s0)));
  }

  lemma FollowsSettled(s1: Snap, sA: Snap, sB: Snap, sC: Snap, a: seq<Name>, b: seq<Name>, ns: set<Name>, ok: bool)
    requires Good(s1) && Good(sA) && Effect(s1, sA, ns, ok) && Follows(s1, sA, a)
    requires SettledFrom(sA, sB) && Good(sB) && Follows(sB, sC, b)
    ensures Follows(s1, sC.(depth := s1.depth), a + b)
  {
    hide FrameAt, Walked, Grown, ScopeOf;
    SettledScope(sA, sB);
    assert Follows(sA, sC.(depth := s1.depth), b);
    FollowsOn(s1, sA, sC.(depth := s1.depth), a, b, ns, ok);
  }

  // ---------------------------------------------------------------- one expression

  ghost predicate InTurn(s0: Snap, s1: Snap, e: Expr, le: LExpr)
    requires Good(s0) && Good(s1)
  {
    WF(e, Dom(s0)) ==> Follows(s0, s1, Order(e)) && Ordered(e, le, Sc(s0), Top(s1))
  }

  ghost predicate UseInTurn(s0: Snap, s1: Snap, e: Expr, le: LExpr, sh: Shape)
    requires Good(s0) && Good(s1)
  {
    WF(e, Dom(s0)) ==> Follows(s0, s1, Order(e)) && OrderedUse(e, le, sh, Sc(s0), Top(s1))
  }

  lemma NameTurn(s0: Snap, s1: Snap, n: Name, le: LExpr)
    requires Good(s0) && Good(s1) && n != Super && (n in Dom(s0) ==> Follows(s0, s1, [n]))
    ensures InTurn(s0, s1, Ref(n), le)
  {}

  /** Expressions that capture nothing. */
  lemma QuietTurn(s0: Snap, s1: Snap, e: Expr, le: LExpr)
    requires Good(s0) && Good(s1) && s1.caps == s0.caps
    requires e.Lit? || e.SuperField? || e == Ref(Super) || (e.Arr? && AllTrivial(e.items))
    ensures InTurn(s0, s1, e, le)
  {
    hide StackOk, ScopeOf, Near;
    FollowsNone(s0, s1);
    if e.Arr? { OrdersTrivial(e.items); }
  }

  lemma NoDefaultTurn(s: Snap)
    requires Good(s)
    ensures UseInTurn(s, s, NoDefault, LLit(Null), Shape([], 0))
  {
    hide StackOk, ScopeOf, Near;
    FollowsNone(s, s);
    assert Taken([], [], Sc(s), Top(s).first) == [];
  }

  lemma {:induction false} NoBindsTurn(s0: Snap, s1: Snap, e: Expr, le: LExpr)
    requires e.Local? && e.binds == [] && Good(s0) && Good(s1) && InTurn(s0, s1, e.body, le)
    ensures InTurn(s0, s1, e, le)
  {
    hide StackOk, ScopeOf, Near;
    assert NameSet(Names(e.binds)) == {} && Dom(s0) + {} == Dom(s0) && OrderBinds(e.binds) == [];
    assert OrderBinds(e.binds) + Order(e.body) == Order(e.body);
    WithoutNone(Order(e.body));
  }

  lemma {:induction false} WithoutNone(us: seq<Name>)
    ensures Without(us, {}) == us
    decreases |us|
  {
    if us != [] {
      WithoutNone(us[..|us| - 1]);
      assert us == us[..|us| - 1] + [us[|us| - 1]];
    }
  }

  // ---------------------------------------------------------------- sequences

  ghost predicate AllWF(es: seq<Expr>, k: nat, dom: set<Name>)
    requires k <= |es|
  {
    forall j :: 0 <= j < k ==> WF(es[j], dom)
  }

  ghost predicate SeqInTurn(s0: Snap, s1: Snap, es: seq<Expr>, les: seq<LExpr>, k: nat)
    requires Good(s0) && Good(s1) && k <= |es|
  {
    |les| == k && (AllWF(es, k, Dom(s0)) ==>
      Follows(s0, s1, Orders(es[..k])) && forall j :: 0 <= j < k ==> Ordered(es[j], les[j], Sc(s0), Top(s1)))
  }

  ghost predicate UsesInTurn(s0: Snap, s1: Snap, es: seq<Expr>, ls: seq<Lowered>, k: nat)
    requires Good(s0) && Good(s1) && k <= |es|
  {
    |ls| == k && (AllWF(es, k, Dom(s0)) ==>
      Follows(s0, s1, Orders(es[..k])) &&
      forall j :: 0 <= j < k ==> OrderedUse(es[j], ls[j].value, ls[j].shape, Sc(s0), Top(s1)))
  }

  lemma NoneInTurn(s: Snap, es: seq<Expr>)
    requires Good(s)
    ensures SeqInTurn(s, s, es, [], 0) && UsesInTurn(s, s, es, [], 0)
  {
    hide StackOk, ScopeOf, Near;
    FollowsNone(s, s);
    assert Orders(es[..0]) == [];
  }

  lemma OrdersNext(es: seq<Expr>, k: nat)
    requires k < |es|
    ensures Orders(es[..k + 1]) == Orders(es[..k]) + Order(es[k])
  {
    assert es[..k + 1][..k] == es[..k];
  }

  lemma SeqTurn(s0: Snap, s1: Snap, s2: Snap, es: seq<Expr>, les: seq<LExpr>, k: nat, le: LExpr, a: set<Name>, b: set<Name>,
                ok: bool, ok': bool)
    requires Good(s0) && Good(s1) && Good(s2) && k < |es| && Effect(s0, s1, a, ok) && Effect(s1, s2, b, ok')
    requires SeqInTurn(s0, s1, es, les, k) && InTurn(s1, s2, es[k], le)
    ensures SeqInTurn(s0, s2, es, les + [le], k + 1)
  {
    hide Effect, Good, WF, Follows, Ordered, Top, Sc;
    if AllWF(es, k + 1, Dom(s0)) {
      EffectScope(s0, s1, a, ok);
      OrdersNext(es, k);
      FollowsOn(s0, s1, s2, Orders(es[..k]), Order(es[k]), a, ok);
      EffectView(s1, s2, b, ok');
      forall j | 0 <= j < k + 1 ensures Ordered(es[j], (les + [le])[j], Sc(s0), Top(s2)) {
        if j < k { OrderedGrows(es[j], les[j], Sc(s0), Top(s1), Top(s2)); }
      }
    }
  }

  lemma UsesTurn(s0: Snap, s1: Snap, s2: Snap, es: seq<Expr>, ls: seq<Lowered>, k: nat, l: Lowered, a: set<Name>, b: set<Name>,
                 ok: bool, ok': bool)
    requires Good(s0) && Good(s1) && Good(s2) && k < |es| && Effect(s0, s1, a, ok) && Effect(s1, s2, b, ok')
    requires UsesInTurn(s0, s1, es, ls, k) && UseInTurn(s1, s2, es[k], l.value, l.shape)
    ensures UsesInTurn(s0, s2, es, ls + [l], k + 1)
  {
    hide Effect, Good, WF, Follows, OrderedUse, Top, Sc;
    if AllWF(es, k + 1, Dom(s0)) {
      EffectScope(s0, s1, a, ok);
      OrdersNext(es, k);
      FollowsOn(s0, s1, s2, Orders(es[..k]), Order(es[k]), a, ok);
      EffectView(s1, s2, b, ok');
      forall j | 0 <= j < k + 1
        ensures OrderedUse(es[j], (ls + [l])[j].value, (ls + [l])[j].shape, Sc(s0), Top(s2))
      {
        if j < k { OrderedUseGrows(es[j], ls[j].value, ls[j].shape, Sc(s0), Top(s1), Top(s2)); }
      }
    }
  }

  lemma NodeTurn(s0: Snap, s1: Snap, e: Expr, les: seq<LExpr>)
    requires Good(s0) && Good(s1) && e.Node? && SeqInTurn(s0, s1, e.kids, les, |e.kids|)
    ensures InTurn(s0, s1, e, LNode(e.op, les))
  {
    hide Good, Follows, Top, Sc;
    assert e.kids[..|e.kids|] == e.kids;
  }

  // ---------------------------------------------------------------- closures without locals

  lemma PopWalk(s0: Snap, s1: Snap, us: seq<Name>, ns: set<Name>, ok: bool)
    requires Good(s0) && Good(PushedUse(s0)) && Sc(PushedUse(s0)) == Sc(s0) && Good(s1) && Effect(PushedUse(s0), s1, ns, ok)
    requires Follows(PushedUse(s0), s1, us)
    ensures s1.frames != [] && s1.caps != [] && Good(Popped(s1)) && Follows(s0, Popped(s1), us)
    ensures InOrder(TopShape(s1), Top(Popped(s1)), us, Sc(s0), Top(Popped(s1)).first)
  {
    hide Grown, FrameAt, ScopeOf, Walked, CapsOnly, Near;
    PopUse(s0, s1, ns, ok);
    StackLengths(s0, s1, ns, ok);
    WalkedUse(s0.frames, s0.caps, s1.caps, Frame(None, NoCaptures, []), us, Sc(s0));
    PushedTop(s0, s1, ns, ok);
    assert UseView(Top(Popped(s1)), TopShape(s1)).caps == Ids(TopShape(s1), Top(Popped(s1)));
  }

  lemma PushedTop(s0: Snap, s1: Snap, ns: set<Name>, ok: bool)
    requires Good(s0) && Good(PushedUse(s0)) && Good(s1) && Effect(PushedUse(s0), s1, ns, ok)
    ensures Top(s1).first == Near(s0.frames, |s0.frames| - 1).first
    ensures |s1.caps| == |s0.frames| + 1 && Top(s1).caps == s1.caps[|s0.frames|]
  {
    hide FrameAt, ScopeOf, Grown;
    var f := Frame(None, NoCaptures, []);
    StackLengths(s0, s1, ns, ok);
    GrownNear(PushedUse(s0).frames, PushedUse(s0).caps, s1.frames, s1.caps, IdsOf(ns, Sc(PushedUse(s0))), |s0.frames|);
    NearNone(s0.frames, f);
    NearPrefix(s0.frames, [f], |s0.frames| - 1);
  }

  lemma UseTurn(s0: Snap, s1: Snap, e: Expr, le: LExpr)
    requires Good(s0) && Good(PushedUse(s0)) && Sc(PushedUse(s0)) == Sc(s0) && Good(s1)
    requires Effect(PushedUse(s0), s1, FV(e), WF(e, Dom(s0))) && InTurn(PushedUse(s0), s1, e, le)
    ensures s1.frames != [] && s1.caps != [] && Good(Popped(s1)) && UseInTurn(s0, Popped(s1), e, le, TopShape(s1))
  {
    hide Good, Follows, Effect, FV, WF, Ordered, Sc, Popped, PushedUse, TopShape, Top, CapsOnly, ShapeOk, UseView, InOrder;
    PopUse(s0, s1, FV(e), WF(e, Dom(s0)));
    if WF(e, Dom(s0)) { PopWalk(s0, s1, Order(e), FV(e), WF(e, Dom(s0))); }
  }

  lemma ArrTurn(s0: Snap, s1: Snap, e: Expr, les: seq<LExpr>, ok: bool)
    requires Good(s0) && Good(PushedUse(s0)) && Sc(PushedUse(s0)) == Sc(s0) && Good(s1) && e.Arr? && !AllTrivial(e.items)
    requires Effect(PushedUse(s0), s1, FV(e), ok) && SeqInTurn(PushedUse(s0), s1, e.items, les, |e.items|)
    ensures s1.frames != [] && s1.caps != [] && Good(Popped(s1)) && InTurn(s0, Popped(s1), e, LArr(TopShape(s1), les))
  {
    hide Good, Follows, Effect, FV, Sc, Popped, PushedUse, TopShape, Top, CapsOnly, ShapeOk, UseView, InOrder;
    PopUse(s0, s1, FV(e), ok);
    if WF(e, Dom(s0)) {
      assert e.items[..|e.items|] == e.items;
      PopWalk(s0, s1, Orders(e.items), FV(e), ok);
    }
  }

  // ---------------------------------------------------------------- frames with locals

  lemma HidesInside(s0: Snap, s1: Snap, bound: set<Name>)
    requires Inside(s0, s1, bound)
    ensures Hides(Sc(s0), Sc(s1), bound, |s0.defs|)
  {
    hide StackOk, ScopeOf, Near;
  }

  lemma LeaveWalk(s0: Snap, s1: Snap, s2: Snap, bound: set<Name>, names: set<Name>, free: set<Name>, ok: bool, us: seq<Name>)
    requires Inside(s0, s1, bound) && Good(s2) && Effect(s1, s2, free, ok) && Follows(s1, s2, us)
    requires Hides(Sc(s0), Sc(s1), names, |s0.defs|)
    ensures s2.frames != [] && s2.caps != [] && |s0.defs| <= |s2.defs| && Good(Left(s0, s2))
    ensures Follows(s0, Left(s0, s2), Without(us, names))
    ensures InOrder(TopShape(s2), Top(Left(s0, s2)), Without(us, names), Sc(s0), Sc(s0).next)
  {
    hide FrameAt, Grown, Walked, Hides, IdsOf, Near, NamesPart;
    LeaveFrame(s0, s1, s2, bound, free, ok);
    LeaveLengths(s0, s1, s2, bound, free, ok);
    var f := s1.frames[|s0.frames|];
    assert s1.frames == s0.frames + [f];
    WalkedFrame(s0.frames, s0.caps, s2.caps, f, us, names, Sc(s0), Sc(s1), |s0.defs|);
  }

  ghost predicate BindsInTurn(s0: Snap, s1: Snap, bs: seq<Bind>, lbs: seq<LBind>)
    requires Good(s0) && Good(s1)
  {
    Distinct(Names(bs)) && WFBinds(bs, Dom(s0)) ==>
      Follows(s0, s1, OrderBinds(bs)) && OrderedBinds(bs, lbs, Sc(s0), Top(s1))
  }

  ghost predicate FieldsInTurn(s0: Snap, s1: Snap, fs: seq<Bind>, lfs: seq<LField>)
    requires Good(s0) && Good(s1)
  {
    WFBinds(fs, Dom(s0)) ==> Follows(s0, s1, OrderBinds(fs)) && OrderedFields(fs, lfs, Sc(s0), Top(s1))
  }

  ghost predicate OrderedParams(ps: seq<Param>, lps: seq<LParam>, sc: Scope, v: View) {
    |lps| == |ps| && forall i :: 0 <= i < |ps| ==> OrderedParam(ps[i], lps[i], sc, v)
  }

  ghost predicate ParamsInTurn(s0: Snap, s1: Snap, ps: seq<Param>, lps: seq<LParam>)
    requires Good(s0) && Good(s1)
  {
    Distinct(ParamNames(ps)) && WFParams(ps, Dom(s0)) ==>
      Follows(s0, s1, OrderParams(ps)) && OrderedParams(ps, lps, Sc(s0), Top(s1))
  }

  lemma {:induction false} OrderValues(bs: seq<Bind>)
    ensures OrderBinds(bs) == Orders(Values(bs))
    decreases |bs|
  {
    if bs != [] {
      OrderValues(bs[..|bs| - 1]);
      assert Values(bs)[..|bs| - 1] == Values(bs[..|bs| - 1]);
    }
  }

  lemma {:induction false} OrderDefaults(ps: seq<Param>)
    ensures OrderParams(ps) == Orders(Defaults(ps))
    decreases |ps|
  {
    if ps != [] {
      OrderDefaults(ps[..|ps| - 1]);
      assert Defaults(ps)[..|ps| - 1] == Defaults(ps[..|ps| - 1]);
    }
  }

  lemma BindsTurn(s0: Snap, s1: Snap, bs: seq<Bind>, ls: seq<Lowered>, lbs: seq<LBind>, off: nat)
    requires Good(s0) && Good(s1) && UsesInTurn(s0, s1, Values(bs), ls, |bs|)
    requires Distinct(Names(bs)) ==> |lbs| == |bs| && forall j :: 0 <= j < |bs| ==> lbs[j] == LBind(off + j, ls[j].shape, ls[j].value)
    ensures BindsInTurn(s0, s1, bs, lbs)
  {
    hide Good, Follows, OrderedUse, Top, Sc, Distinct, WF;
    OrderValues(bs);
    assert Values(bs)[..|bs|] == Values(bs);
    if Distinct(Names(bs)) && WFBinds(bs, Dom(s0)) {
      assert AllWF(Values(bs), |bs|, Dom(s0));
      forall i | 0 <= i < |bs| ensures OrderedUse(bs[i].value, lbs[i].value, lbs[i].shape, Sc(s0), Top(s1)) {
        assert Values(bs)[i] == bs[i].value;
      }
    }
  }

  lemma FieldsTurn(s0: Snap, s1: Snap, fs: seq<Bind>, ls: seq<Lowered>, lfs: seq<LField>)
    requires Good(s0) && Good(s1) && UsesInTurn(s0, s1, Values(fs), ls, |fs|)
    requires |lfs| == |fs| && forall j :: 0 <= j < |fs| ==> lfs[j] == LField(fs[j].name, ls[j].shape, ls[j].value)
    ensures FieldsInTurn(s0, s1, fs, lfs)
  {
    hide Good, Follows, OrderedUse, Top, Sc, WF;
    OrderValues(fs);
    assert Values(fs)[..|fs|] == Values(fs);
    if WFBinds(fs, Dom(s0)) {
      assert AllWF(Values(fs), |fs|, Dom(s0));
      forall i | 0 <= i < |fs| ensures OrderedUse(fs[i].value, lfs[i].value, lfs[i].shape, Sc(s0), Top(s1)) {
        assert Values(fs)[i] == fs[i].value;
      }
    }
  }

  lemma ParamsTurn(s0: Snap, s1: Snap, ps: seq<Param>, ls: seq<Lowered>, lps: seq<LParam>)
    requires Good(s0) && Good(s1) && UsesInTurn(s0, s1, Defaults(ps), ls, |ps|)
    requires Distinct(ParamNames(ps)) ==> |lps| == |ps| && forall j :: 0 <= j < |ps| ==> lps[j] == LoweredParam(ps[j], j, ls[j])
    ensures ParamsInTurn(s0, s1, ps, lps)
  {
    hide Good, Follows, OrderedUse, Top, Sc, Distinct;
    OrderDefaults(ps);
    assert Defaults(ps)[..|ps|] == Defaults(ps);
    if Distinct(ParamNames(ps)) && WFParams(ps, Dom(s0)) {
      forall j | 0 <= j < |ps| ensures WF(Defaults(ps)[j], Dom(s0)) { assert WFParam(ps[j], Dom(s0)); }
      assert AllWF(Defaults(ps), |ps|, Dom(s0));
      forall i | 0 <= i < |ps| ensures OrderedParam(ps[i], lps[i], Sc(s0), Top(s1)) {
        assert Defaults(ps)[i] == ps[i].default.GetOr(NoDefault);
      }
    }
  }

  lemma OrderedBindsGrow(bs: seq<Bind>, lbs: seq<LBind>, sc: Scope, v0: View, v1: View)
    requires Grows(v0, v1) && OrderedBinds(bs, lbs, sc, v0)
    ensures OrderedBinds(bs, lbs, sc, v1)
  {
    hide OrderedUse, Grows;
    forall i | 0 <= i < |bs| ensures OrderedUse(bs[i].value, lbs[i].value, lbs[i].shape, sc, v1) {
      OrderedUseGrows(bs[i].value, lbs[i].value, lbs[i].shape, sc, v0, v1);
    }
  }

  lemma OrderedParamsGrow(ps: seq<Param>, lps: seq<LParam>, sc: Scope, v0: View, v1: View)
    requires Grows(v0, v1) && OrderedParams(ps, lps, sc, v0)
    ensures OrderedParams(ps, lps, sc, v1)
  {
    hide OrderedUse, Grows;
    forall i | 0 <= i < |ps| ensures OrderedParam(ps[i], lps[i], sc, v1) {
      assert OrderedParam(ps[i], lps[i], sc, v0);
      if ps[i].default.Some? {
        var b := lps[i].default.value;
        OrderedUseGrows(ps[i].default.value, b.value, b.shape, sc, v0, v1);
      }
    }
  }

  // ---------------------------------------------------------------- `local` and functions

  /** Values and body of a `local`, seen from the inside of its frame. */
  ghost predicate LocalInTurn(s1: Snap, s2: Snap, e: Expr, lbs: seq<LBind>, lb: LExpr)
    requires e.Local? && Good(s1) && Good(s2)
  {
    Distinct(Names(e.binds)) && WFBinds(e.binds, Dom(s1)) && WF(e.body, Dom(s1)) ==>
      && Follows(s1, s2, OrderBinds(e.binds) + Order(e.body))
      && OrderedBinds(e.binds, lbs, Sc(s1), Top(s2)) && Ordered(e.body, lb, Sc(s1), Top(s2))
  }

  lemma LocalTurn(s1: Snap, sA: Snap, sB: Snap, sC: Snap, e: Expr, lbs: seq<LBind>, lb: LExpr, ns: set<Name>, ns': set<Name>,
                  ok: bool, ok': bool)
    requires e.Local? && Good(s1) && Good(sA) && Good(sB) && Good(sC) && Effect(s1, sA, ns, ok) && SettledFrom(sA, sB)
    requires Effect(sB, sC, ns', ok') && BindsInTurn(s1, sA, e.binds, lbs) && InTurn(sB, sC, e.body, lb)
    ensures Good(sC.(depth := s1.depth)) && LocalInTurn(s1, sC.(depth := s1.depth), e, lbs, lb)
  {
    hide StackOk, ScopeOf, Effect, SettledFrom, Follows, Distinct, WF, WFBinds, OrderedBinds, Ordered, Near, Grows;
    BodyEffect(s1, sA, sB, sC, ns, ns', ok, ok');
    EffectScope(s1, sA, ns, ok);
    if Distinct(Names(e.binds)) && WFBinds(e.binds, Dom(s1)) && WF(e.body, Dom(s1)) {
      FollowsSettled(s1, sA, sB, sC, OrderBinds(e.binds), Order(e.body), ns, ok);
      OrderedBindsGrow(e.binds, lbs, Sc(s1), Top(sA), Top(sC));
    }
  }

  lemma LocalLeft(s0: Snap, s1: Snap, s2: Snap, e: Expr, lbs: seq<LBind>, lb: LExpr, free: set<Name>, ok: bool)
    requires e.Local? && e.binds != [] && Opened(s0, s1, Names(e.binds)) && Good(s1) && Good(s2) && Effect(s1, s2, free, ok)
    requires LocalInTurn(s1, s2, e, lbs, lb)
    requires s2.frames != [] && s2.caps != [] && |s0.defs| <= |s2.defs| && Good(Left(s0, s2))
    requires ShapeOk(TopShape(s2), Top(Left(s0, s2))) && EnterView(Top(Left(s0, s2)), TopShape(s2), Sc(s0).next) == Top(s2)
    ensures InTurn(s0, Left(s0, s2), e, LLocal(TopShape(s2), lbs, lb))
  {
    hide StackOk, ScopeOf, Effect, Follows, Distinct, WFBinds, OrderedBinds, Ordered, Near, Inside, InOrder, EnterView,
         BindAll, NameSet;
    var ns := Names(e.binds);
    if WF(e, Dom(s0)) {
      HidesInside(s0, s1, NameSet(ns));
      LeaveWalk(s0, s1, s2, NameSet(ns), NameSet(ns), free, ok, OrderBinds(e.binds) + Order(e.body));
      OrderedLocal(e, LLocal(TopShape(s2), lbs, lb), Sc(s0), Top(Left(s0, s2)), Sc(s1), Top(s2));
    }
  }

  lemma OrderedLocal(e: Expr, le: LExpr, sc: Scope, v: View, sc': Scope, v': View)
    requires e.Local? && e.binds != [] && le.LLocal? && InOrder(le.shape, v, Order(e), sc, sc.next)
    requires sc' == BindAll(sc, Names(e.binds)) && v' == EnterView(v, le.shape, sc.next)
    requires OrderedBinds(e.binds, le.binds, sc', v') && Ordered(e.body, le.body, sc', v')
    ensures Ordered(e, le, sc, v)
  {}

  ghost predicate FnInTurn(s1: Snap, s2: Snap, e: Expr, lps: seq<LParam>, lb: LExpr)
    requires e.Fn? && Good(s1) && Good(s2)
  {
    Distinct(ParamNames(e.params)) && WFParams(e.params, Dom(s1)) && WF(e.body, Dom(s1)) ==>
      && Follows(s1, s2, OrderParams(e.params) + Order(e.body))
      && OrderedParams(e.params, lps, Sc(s1), Top(s2)) && Ordered(e.body, lb, Sc(s1), Top(s2))
  }

  lemma FnTurn(s1: Snap, sA: Snap, sB: Snap, sC: Snap, e: Expr, lps: seq<LParam>, lb: LExpr, ns: set<Name>, ns': set<Name>,
               ok: bool, ok': bool)
    requires e.Fn? && Good(s1) && Good(sA) && Good(sB) && Good(sC) && Effect(s1, sA, ns, ok) && SettledFrom(sA, sB)
    requires Effect(sB, sC, ns', ok') && ParamsInTurn(s1, sA, e.params, lps) && InTurn(sB, sC, e.body, lb)
    ensures Good(sC.(depth := s1.depth)) && FnInTurn(s1, sC.(depth := s1.depth), e, lps, lb)
  {
    hide StackOk, ScopeOf, Effect, SettledFrom, Follows, Distinct, WF, WFParams, OrderedParams, Ordered, Near, Grows;
    BodyEffect(s1, sA, sB, sC, ns, ns', ok, ok');
    EffectScope(s1, sA, ns, ok);
    if Distinct(ParamNames(e.params)) && WFParams(e.params, Dom(s1)) && WF(e.body, Dom(s1)) {
      FollowsSettled(s1, sA, sB, sC, OrderParams(e.params), Order(e.body), ns, ok);
      OrderedParamsGrow(e.params, lps, Sc(s1), Top(sA), Top(sC));
    }
  }

  lemma FnLeft(s0: Snap, s1: Snap, s2: Snap, e: Expr, lps: seq<LParam>, lb: LExpr, free: set<Name>, ok: bool)
    requires e.Fn? && Opened(s0, s1, ParamNames(e.params)) && Good(s1) && Good(s2) && Effect(s1, s2, free, ok)
    requires FnInTurn(s1, s2, e, lps, lb)
    requires s2.frames != [] && s2.caps != [] && |s0.defs| <= |s2.defs| && Good(Left(s0, s2))
    requires ShapeOk(TopShape(s2), Top(Left(s0, s2))) && EnterView(Top(Left(s0, s2)), TopShape(s2), Sc(s0).next) == Top(s2)
    ensures InTurn(s0, Left(s0, s2), e, LFn(lps, TopShape(s2), lb)) && InTurn(s0, Left(s0, s2), e, LIdentity)
  {
    hide StackOk, ScopeOf, Effect, Follows, Distinct, WFParams, OrderedParams, Near, Inside, InOrder, EnterView,
         BindAll, NameSet;
    var ns := ParamNames(e.params);
    if WF(e, Dom(s0)) {
      WFFn(e, Dom(s0), Dom(s1));
      HidesInside(s0, s1, NameSet(ns));
      LeaveWalk(s0, s1, s2, NameSet(ns), NameSet(ns), free, ok, OrderParams(e.params) + Order(e.body));
      OrderedFn(e, LFn(lps, TopShape(s2), lb), Sc(s0), Top(Left(s0, s2)), Sc(s1), Top(s2));
    }
  }

  lemma OrderedFn(e: Expr, le: LExpr, sc: Scope, v: View, sc': Scope, v': View)
    requires e.Fn? && le.LFn? && InOrder(le.shape, v, Order(e), sc, sc.next)
    requires sc' == BindAll(sc, ParamNames(e.params)) && v' == EnterView(v, le.shape, sc.next)
    requires OrderedParams(e.params, le.params, sc', v') && Ordered(e.body, le.body, sc', v')
    ensures Ordered(e, le, sc, v)
  {}
}
