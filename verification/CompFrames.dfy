/** The frames of a comprehension's iteration variables, and analysing a source as if it stood
    outside them. */
module CompFrames {
  import opened Options
  import opened Syntax
  import opened Resolution
  import opened ResolutionLaws
  import opened CaptureStack
  import opened NameStacks
  import opened CaptureOrder
  import opened FirstUse
  import opened AnalyzerState
  import opened CaptureWalks
  import opened AnalyzerContracts
  import S = Siblings

  /** The walk is inside a comprehension that started with `m` closure frames, `n0` locals and depth
      `d`, and has bound the iteration variables `bound` so far. */
  ghost predicate InComp(s: Snap, m: nat, n0: nat, d: nat, bound: set<Name>) {
    && Good(s) && 0 < m <= |s.frames| && n0 <= |s.defs| && d <= s.depth
    && (forall i :: m <= i < |s.frames| ==> s.frames[i].defining.Some? && s.frames[i].defining.value.first >= n0)
    && (forall id :: n0 <= id < |s.defs| ==> s.defs[id].depth >= d)
    && (forall n :: n in bound ==> n in Sc(s).ids && Sc(s).ids[n] >= n0)
  }

  /** The view outside the comprehension. */
  ghost function OuterView(s: Snap, m: nat): View
    requires Good(s) && 0 < m <= |s.frames|
  {
    ViewAt(s.frames[..m], s.caps[..m], m - 1, s.self.Some?)
  }

  lemma OutermostView(s: Snap)
    requires Good(s)
    ensures OuterView(s, |s.frames|) == Top(s)
  {
    assert s.frames[..|s.frames|] == s.frames && s.caps[..|s.caps|] == s.caps;
  }

  /** The test that decides whether a source does not depend on the comprehension's own variables. */
  predicate LoopInvariant(t: S.Analysis, d: nat) { !S.HasLocalDeps(t) || t.locMax < Clamp(d) }

  /** A source is moved out of a comprehension that starts at depth `d` exactly if it mentions no
      local of its own, and all other locals it mentions come from further out, with everything
      their values are known to depend on. */
  ghost predicate Hoistable(s: Snap, over: Expr, d: nat) {
    !Own(over, NoObject(s)) && AllOuter(s.defs, FreeIds(over, Sc(s)), Clamp(d))
  }

  lemma HoistedIff(s0: Snap, s1: Snap, over: Expr, le: LExpr, d: nat, t: S.Analysis)
    requires Good(s0) && Good(s1) && Analyzed(s0, s1, over, le, S.Nothing, t) && d <= s0.depth
    ensures LoopInvariant(t, d) <==> Hoistable(s0, over, d)
  {
    hide Good, Res, WF, InTurn, FV, Own, Grown, KeepsOuter, Sc, IdsOf;
    OuterKept(s0.defs, s1.defs, s0.depth, FreeIds(over, Sc(s0)), Clamp(d));
    assert Within(t, Clamp(d)) <==> Hoistable(s0, over, d);
  }

  lemma {:induction false} ResolveOutside(fs: seq<Frame>, m: nat, i: nat, id: nat, n0: nat)
    requires 0 < m <= |fs| && m - 1 <= i < |fs| && CanResolve(fs, i, id) && id < n0
    requires forall j :: m <= j < |fs| ==> fs[j].defining.Some? && fs[j].defining.value.first >= n0
    ensures CanResolve(fs[..m], m - 1, id)
    decreases i
  {
    if i == m - 1 {
      assert fs == fs[..m] + fs[m..];
      ResolvePrefix(fs[..m], fs[m..], m - 1, id);
    } else {
      ResolveOutside(fs, m, i - 1, id, n0);
    }
  }

  lemma HoistedClosed(s: Snap, over: Expr, inv: bool, d: nat)
    requires Good(s) && (inv <==> Hoistable(s, over, d))
    ensures ClosedHoist(over, inv, Sc(s))
  {
    OnlyObjectNames(s);
    hide FV, Own, Good, ScopeOf;
  }

  /** Hoisting is sound: a source that passes the test mentions no variable bound by an earlier
      specification, and everything it does mention can be resolved from outside. */
  lemma HoistSound(s: Snap, m: nat, n0: nat, d: nat, bound: set<Name>, free: set<Name>, own: bool, t: S.Analysis)
    requires InComp(s, m, n0, d, bound) && Resolvable(s, IdsOf(free, Sc(s)))
    requires Tainted(S.Nothing, t, IdsOf(free, Sc(s)), own, s) && LoopInvariant(t, d)
    ensures free !! bound
    ensures forall id :: id in IdsOf(free, Sc(s)) ==> id < n0 && CanResolve(s.frames[..m], m - 1, id)
  {
    hide StackOk, ScopeOf, CanResolve;
    forall id | id in IdsOf(free, Sc(s)) ensures id < n0 && CanResolve(s.frames[..m], m - 1, id) {
      assert t.loc <= Clamp(s.defs[id].depth) <= t.locMax;
      ResolveOutside(s.frames, m, |s.frames| - 1, id, n0);
    }
    forall n | n in free && n in Sc(s).ids ensures Sc(s).ids[n] < n0 {
      assert Sc(s).ids[n] in IdsOf(free, Sc(s));
    }
  }

  // ---------------------------------------------------------------- detaching the inner frames

  ghost function Detached(s: Snap, m: nat): Snap
    requires m <= |s.frames| && m <= |s.caps|
  {
    s.(frames := s.frames[..m], caps := s.caps[..m])
  }

  /** The inner frames put back on top of what `s'` made of the outer ones; errors found in between
      are forgotten. */
  ghost function Attached(s: Snap, s': Snap, m: nat): Snap
    requires m <= |s.frames| && m <= |s.caps|
  {
    s'.(frames := s'.frames + s.frames[m..], caps := s'.caps + s.caps[m..], errored := s.errored)
  }

  lemma DetachedGood(s: Snap, m: nat)
    requires Good(s) && 0 < m <= |s.frames|
    ensures Good(Detached(s, m)) && Sc(Detached(s, m)) == Sc(s) && Top(Detached(s, m)) == OuterView(s, m)
  {
    hide ScopeOf;
    assert s.frames == s.frames[..m] + s.frames[m..];
    forall k | 0 <= k < m ensures FrameAt(s.frames[..m], s.caps[..m], k) {
      assert FrameAt(s.frames, s.caps, k);
      NearPrefix(s.frames[..m], s.frames[m..], k);
      if k > 0 { NearPrefix(s.frames[..m], s.frames[m..], k - 1); }
    }
  }

  lemma GrownAttached(fs: seq<Frame>, cs: seq<seq<nat>>, fs': seq<Frame>, cs': seq<seq<nat>>, m: nat, added: set<nat>)
    requires |cs| == |fs| && 0 < m <= |fs| && Grown(fs[..m], cs[..m], fs', cs', added)
    ensures Grown(fs, cs, fs' + fs[m..], cs' + cs[m..], added)
  {
    forall i | 0 <= i < |fs| ensures FrameGrown(fs[i], cs[i], (fs' + fs[m..])[i], (cs' + cs[m..])[i], added) {
      if i < m { assert FrameGrown(fs[..m][i], cs[..m][i], fs'[i], cs'[i], added); }
    }
  }

  lemma AttachedFrame(fs: seq<Frame>, cs: seq<seq<nat>>, gs: seq<Frame>, ds: seq<seq<nat>>, added: set<nat>, k: nat)
    requires Grown(fs, cs, gs, ds, added) && 0 < k < |fs| && fs[0].defining.Some? && FrameAt(fs, cs, k)
    requires gs[k] == fs[k] && ds[k] == cs[k]
    ensures gs[0].defining.Some? && FrameAt(gs, ds, k)
  {
    GrownNear(fs, cs, gs, ds, added, k);
    GrownView(fs, cs, gs, ds, added, k - 1, false);
    forall j | 0 <= j < |cs[k]| ensures IdOf(ViewAt(gs, ds, k - 1, false), fs[k].sources[j]) == Some(cs[k][j]) {
      assert IdOf(ViewAt(fs, cs, k - 1, false), fs[k].sources[j]) == Some(cs[k][j]);
    }
  }

  lemma OuterFrame(gs: seq<Frame>, ds: seq<seq<nat>>, m: nat, k: nat)
    requires |ds| == |gs| && k < m <= |gs| && gs[0].defining.Some? && FrameAt(gs[..m], ds[..m], k)
    ensures FrameAt(gs, ds, k)
  {
    assert gs == gs[..m] + gs[m..];
    NearPrefix(gs[..m], gs[m..], k);
    if k > 0 { NearPrefix(gs[..m], gs[m..], k - 1); }
  }

  lemma AttachedStack(fs: seq<Frame>, cs: seq<seq<nat>>, fs': seq<Frame>, cs': seq<seq<nat>>, m: nat, added: set<nat>, next: nat)
    requires StackOk(fs, cs, next) && 0 < m <= |fs| && StackOk(fs', cs', next) && Grown(fs[..m], cs[..m], fs', cs', added)
    ensures StackOk(fs' + fs[m..], cs' + cs[m..], next) && Grown(fs, cs, fs' + fs[m..], cs' + cs[m..], added)
  {
    hide FrameAt;
    GrownAttached(fs, cs, fs', cs', m, added);
    var gs, ds := fs' + fs[m..], cs' + cs[m..];
    assert gs[..m] == fs' && ds[..m] == cs';
    forall k | 0 <= k < |gs| ensures FrameAt(gs, ds, k) && FrameGrown(fs[k], cs[k], gs[k], ds[k], added) {
      assert FrameAt(fs, cs, k);
      if k < m {
        assert FrameAt(fs', cs', k);
        OuterFrame(gs, ds, m, k);
      } else {
        AttachedFrame(fs, cs, gs, ds, added, k);
      }
    }
  }

  /** Analysing a source again from outside leaves everything as a second analysis in place would,
      except that it reports nothing and that its captures end at the outer frames. */
  lemma AttachedEffect(s: Snap, s': Snap, m: nat, ns: set<Name>, ok: bool)
    requires Good(s) && 0 < m <= |s.frames| && Good(Detached(s, m)) && Sc(Detached(s, m)) == Sc(s)
    requires Good(s') && Effect(Detached(s, m), s', ns, ok)
    ensures Good(Attached(s, s', m)) && Effect(s, Attached(s, s', m), ns, true)
    ensures OuterView(Attached(s, s', m), m) == Top(s')
  {
    hide ScopeOf, FrameAt, Near;
    AttachedStack(s.frames, s.caps, s'.frames, s'.caps, m, IdsOf(ns, Sc(s)), |s.defs|);
    var a := Attached(s, s', m);
    assert a.frames[..m] == s'.frames && a.caps[..m] == s'.caps;
  }

  // ---------------------------------------------------------------- one specification at a time

  lemma InCompEffect(s0: Snap, s1: Snap, m: nat, n0: nat, d: nat, bound: set<Name>, ns: set<Name>, ok: bool)
    requires InComp(s0, m, n0, d, bound) && Good(s1) && Effect(s0, s1, ns, ok)
    ensures InComp(s1, m, n0, d, bound)
  {
    hide StackOk, ScopeOf, Near;
    EffectScope(s0, s1, ns, ok);
    forall i | m <= i < |s1.frames| ensures s1.frames[i].defining == s0.frames[i].defining {
      assert FrameGrown(s0.frames[i], s0.caps[i], s1.frames[i], s1.caps[i], IdsOf(ns, Sc(s0)));
    }
  }

  /** The source of an iteration, with the captures it needed. */
  ghost predicate OverDone(s0: Snap, s1: Snap, over: Expr, le: LExpr, inv: bool, m: nat, d: nat, bound: set<Name>,
                           t0: S.Analysis, t1: S.Analysis)
    requires Good(s0) && Good(s1) && 0 < m <= |s1.frames|
  {
    && Effect(s0, s1, FV(over), WF(over, Dom(s0)))
    && (WF(over, Dom(s0)) ==> Res(over, le, Sc(s0), if inv then OuterView(s1, m) else Top(s1)))
    && Tainted(t0, t1, FreeIds(over, Sc(s0)), Own(over, NoObject(s0)), s1)
    && (inv <==> Hoistable(s0, over, d))
    && (inv ==> FV(over) !! bound)
    && OverInTurn(s0, s1, over, le, inv, m)
  }

  ghost predicate OverWalked(s0: Snap, s1: Snap, over: Expr)
    requires Good(s0)
  {
    WF(over, Dom(s0)) ==> Follows(s0, s1, Order(over))
  }

  ghost predicate OverInTurn(s0: Snap, s1: Snap, over: Expr, le: LExpr, inv: bool, m: nat)
    requires Good(s0) && Good(s1) && 0 < m <= |s1.frames|
  {
    OverWalked(s0, s1, over) && (WF(over, Dom(s0)) ==> Ordered(over, le, Sc(s0), if inv then OuterView(s1, m) else Top(s1)))
  }

  lemma InPlaceTurn(s0: Snap, s1: Snap, over: Expr, le: LExpr, inv: bool, m: nat)
    requires Good(s0) && Good(s1) && 0 < m <= |s1.frames| && InTurn(s0, s1, over, le) && (inv ==> OuterView(s1, m) == Top(s1))
    ensures OverInTurn(s0, s1, over, le, inv, m)
  {
    hide Good, Follows, Ordered, WF, Top, OuterView, Sc, Dom;
  }

  /** The second walk of a hoisted source, outside the comprehension, captures nothing new. */
  lemma HoistedTurn(s0: Snap, s1: Snap, s': Snap, over: Expr, le: LExpr, m: nat, ns: set<Name>, ok: bool)
    requires Good(s0) && Good(s1) && Effect(s0, s1, ns, ok) && OverWalked(s0, s1, over) && 0 < m <= |s1.frames|
    requires Good(Detached(s1, m)) && Sc(Detached(s1, m)) == Sc(s1) && Good(s') && InTurn(Detached(s1, m), s', over, le)
    requires var s2 := Attached(s1, s', m); Good(s2) && m <= |s2.frames| && OuterView(s2, m) == Top(s')
    ensures OverInTurn(s0, Attached(s1, s', m), over, le, true, m)
  {
    hide FrameAt, ScopeOf, Walked, Grown, Near, WF, Ordered, Top, OuterView, KeepsOuter, SameDefs, IdsOf;
    EffectScope(s0, s1, ns, ok);
    if WF(over, Dom(s0)) {
      NonEmpty(s1);
      WalkSizes(s0, s1, ns, ok);
      WalkedAgain(s0.frames, s0.caps, s1.frames, s1.caps, s'.caps, m, Order(over), Sc(s0), IdsOf(ns, Sc(s0)));
      assert Attached(s1, s', m).caps == s1.caps;
    }
  }

  lemma WalkSizes(s0: Snap, s1: Snap, ns: set<Name>, ok: bool)
    requires Good(s0) && Good(s1) && Effect(s0, s1, ns, ok)
    ensures |s0.caps| == |s0.frames| == |s1.frames| == |s1.caps|
  {}

  lemma OverMerged(s0: Snap, s1: Snap, over: Expr, le: LExpr, m: nat, n0: nat, d: nat, bound: set<Name>,
                   t: S.Analysis, ot: S.Analysis)
    requires InComp(s0, m, n0, d, bound) && Resolvable(s0, FreeIds(over, Sc(s0)))
    requires Good(s1) && Analyzed(s0, s1, over, le, S.Nothing, ot)
    ensures InComp(s1, m, n0, d, bound) && Resolvable(s1, FreeIds(over, Sc(s1)))
    ensures Effect(s0, s1, FV(over), WF(over, Dom(s0)))
    ensures var own := Own(over, NoObject(s0));
            && Tainted(t, S.TaintBy(t, ot), FreeIds(over, Sc(s0)), own, s1)
            && Tainted(S.Nothing, ot, FreeIds(over, Sc(s1)), own, s1)
    ensures LoopInvariant(ot, d) <==> Hoistable(s0, over, d)
    ensures OverWalked(s0, s1, over)
    ensures !LoopInvariant(ot, d) || |s1.frames| == m ==>
              OverDone(s0, s1, over, le, LoopInvariant(ot, d), m, d, bound, t, S.TaintBy(t, ot))
  {
    hide *;
    InCompSizes(s0, m, n0, d, bound);
    AnalyzedParts(s0, s1, over, le, S.Nothing, ot);
    HoistedIff(s0, s1, over, le, d, ot);
    TurnWalked(s0, s1, over, le);
    var ok, own, inv := WF(over, Dom(s0)), Own(over, NoObject(s0)), LoopInvariant(ot, d);
    InCompEffect(s0, s1, m, n0, d, bound, FV(over), ok);
    EffectScope(s0, s1, FV(over), ok);
    FreeIdsOf(over, Sc(s0));
    EffectResolvable(s0, s1, FV(over), ok, FreeIds(over, Sc(s0)));
    TaintKept(s1);
    MergedTaint(ot, t, FreeIds(over, Sc(s0)), own, s1, s1);
    if inv { HoistSound(s1, m, n0, d, bound, FV(over), own, ot); }
    InCompSizes(s1, m, n0, d, bound);
    if !inv || |s1.frames| == m { OverInPlace(s0, s1, over, le, inv, m, d, bound, t, ot); }
  }

  lemma FreeIdsOf(e: Expr, sc: Scope)
    ensures FreeIds(e, sc) == IdsOf(FV(e), sc)
  {}

  /** A source that is not moved, or need not be. */
  lemma OverInPlace(s0: Snap, s1: Snap, over: Expr, le: LExpr, inv: bool, m: nat, d: nat, bound: set<Name>,
                    t: S.Analysis, ot: S.Analysis)
    requires Good(s0) && Good(s1) && Analyzed(s0, s1, over, le, S.Nothing, ot) && 0 < m <= |s1.frames|
    requires Tainted(t, S.TaintBy(t, ot), FreeIds(over, Sc(s0)), Own(over, NoObject(s0)), s1)
    requires (inv <==> Hoistable(s0, over, d)) && (inv ==> FV(over) !! bound && |s1.frames| == m)
    ensures OverDone(s0, s1, over, le, inv, m, d, bound, t, S.TaintBy(t, ot))
  {
    hide Good, Effect, Tainted, Res, InTurn, OverInTurn, Hoistable, WF, FV, Own, IdsOf, Sc, Top, OuterView;
    if inv { OutermostView(s1); }
    InPlaceTurn(s0, s1, over, le, inv, m);
  }

  lemma AnalyzedParts(s0: Snap, s1: Snap, e: Expr, le: LExpr, t0: S.Analysis, t1: S.Analysis)
    requires Good(s0) && Good(s1) && Analyzed(s0, s1, e, le, t0, t1)
    ensures Effect(s0, s1, FV(e), WF(e, Dom(s0))) && InTurn(s0, s1, e, le)
    ensures Tainted(t0, t1, FreeIds(e, Sc(s0)), Own(e, NoObject(s0)), s1)
  {
    hide Good, Effect, Tainted, Res, InTurn, WF, FV, Own, IdsOf, Sc, Top;
  }

  lemma TaintKept(s: Snap)
    ensures SameDefs(s.defs, s.defs) && KeepsOuter(s.defs, s.defs, s.depth)
  {}

  lemma TurnWalked(s0: Snap, s1: Snap, over: Expr, le: LExpr)
    requires Good(s0) && Good(s1) && InTurn(s0, s1, over, le)
    ensures OverWalked(s0, s1, over)
  {}

  lemma OverHoisted(s0: Snap, s1: Snap, s': Snap, over: Expr, le: LExpr, m: nat, n0: nat, d: nat, bound: set<Name>,
                    t: S.Analysis, ot: S.Analysis, t': S.Analysis)
    requires InComp(s0, m, n0, d, bound) && Good(s1) && InComp(s1, m, n0, d, bound)
    requires Effect(s0, s1, FV(over), WF(over, Dom(s0))) && Resolvable(s1, FreeIds(over, Sc(s1))) && OverWalked(s0, s1, over)
    requires Tainted(S.Nothing, ot, FreeIds(over, Sc(s1)), Own(over, NoObject(s0)), s1) && LoopInvariant(ot, d)
    requires Tainted(t, S.TaintBy(t, ot), FreeIds(over, Sc(s0)), Own(over, NoObject(s0)), s1) && Hoistable(s0, over, d)
    requires Good(Detached(s1, m)) && Sc(Detached(s1, m)) == Sc(s1) && Good(s')
    requires Analyzed(Detached(s1, m), s', over, le, S.Nothing, t')
    ensures var s2 := Attached(s1, s', m);
            Good(s2) && InComp(s2, m, n0, d, bound) && OverDone(s0, s2, over, le, true, m, d, bound, t, S.TaintBy(t, ot))
  {
    hide StackOk, ScopeOf, Near, CanResolve, LoopInvariant, IdsOf, FV, WF, Res, Grown, Tainted, InTurn, OverWalked, OverInTurn,
         Hoistable, Own, KeepsOuter;
    NonEmpty(s1);
    var ok, s2 := WF(over, Dom(s0)), Attached(s1, s', m);
    EffectScope(s0, s1, FV(over), ok);
    HoistSound(s1, m, n0, d, bound, FV(over), Own(over, NoObject(s0)), ot);
    AttachedEffect(s1, s', m, FV(over), ok);
    InCompEffect(s1, s2, m, n0, d, bound, FV(over), true);
    HoistedTurn(s0, s1, s', over, le, m, FV(over), ok);
    EffectTrans(s0, s1, s2, FV(over), FV(over), ok, true);
    assert FV(over) + FV(over) == FV(over);
    SameTaint(t, S.TaintBy(t, ot), FreeIds(over, Sc(s0)), Own(over, NoObject(s0)), s1, s2);
  }

  lemma HoistResolvable(s: Snap, m: nat, n0: nat, d: nat, bound: set<Name>, over: Expr, own: bool, ot: S.Analysis)
    requires InComp(s, m, n0, d, bound) && Resolvable(s, FreeIds(over, Sc(s)))
    requires Tainted(S.Nothing, ot, FreeIds(over, Sc(s)), own, s) && LoopInvariant(ot, d)
    ensures Good(Detached(s, m)) && Sc(Detached(s, m)) == Sc(s) && Resolvable(Detached(s, m), FreeIds(over, Sc(Detached(s, m))))
  {
    hide StackOk, ScopeOf, Near, CanResolve, FV;
    DetachedGood(s, m);
    HoistSound(s, m, n0, d, bound, FV(over), own, ot);
  }

  /** The lowered comprehension as far as the specifications from the `k`-th on are concerned. */
  function CompOf(k: nat, l: Lowered, specs: seq<LSpec>): LExpr {
    LComp(l.shape, l.value, seq(k, _ => LCond(LBad)) + specs)
  }

  ghost predicate SpecsDone(s0: Snap, s1: Snap, c: Expr, k: nat, l: Lowered, specs: seq<LSpec>, m: nat, bound: set<Name>,
                            t0: S.Analysis, t1: S.Analysis)
    requires Good(s0) && Good(s1) && c.Comp? && k <= |c.specs| && 0 < m <= |s1.frames|
  {
    && |specs| == |c.specs| - k
    && Effect(s0, s1, FVSpecs(c, k), WFSpecs(c, k, Dom(s0)))
    && (WFSpecs(c, k, Dom(s0)) ==> ResSpecs(c, CompOf(k, l, specs), k, Sc(s0), Top(s1), OuterView(s1, m), bound))
    && Tainted(t0, t1, IdsOf(FVSpecs(c, k), Sc(s0)), OwnSpecs(c, k, NoObject(s0)), s1)
    && SpecsInTurn(s0, s1, c, k, l, specs, m)
  }

  ghost predicate SpecsInTurn(s0: Snap, s1: Snap, c: Expr, k: nat, l: Lowered, specs: seq<LSpec>, m: nat)
    requires Good(s0) && Good(s1) && c.Comp? && k <= |c.specs| && 0 < m <= |s1.frames|
  {
    |specs| == |c.specs| - k && (WFSpecs(c, k, Dom(s0)) ==>
      && Follows(s0, s1, OrderSpecs(c, k))
      && OrderedSpecs(c, CompOf(k, l, specs), k, Sc(s0), Top(s1), OuterView(s1, m)))
  }

  lemma {:induction false} OrderedSpecsSame(c: Expr, lc: LExpr, lc': LExpr, k: nat, sc: Scope, v: View, v0: View)
    requires c.Comp? && lc.LComp? && lc'.LComp? && |lc.specs| == |c.specs| == |lc'.specs| && k <= |c.specs|
    requires lc'.vshape == lc.vshape && lc'.value == lc.value && forall i :: k <= i < |c.specs| ==> lc'.specs[i] == lc.specs[i]
    requires OrderedSpecs(c, lc, k, sc, v, v0)
    ensures OrderedSpecs(c, lc', k, sc, v, v0)
    decreases |c.specs| - k
  {
    if k < |c.specs| {
      match c.specs[k]
      case Cond(_) => OrderedSpecsSame(c, lc, lc', k + 1, sc, v, v0);
      case For(x, _) =>
        OrderedSpecsSame(c, lc, lc', k + 1, Bind1(sc, Id(x)), EnterView(v, lc.specs[k].shape, sc.next), v0);
    }
  }

  lemma InnermostTurn(s0: Snap, s1: Snap, c: Expr, k: nat, l: Lowered, m: nat)
    requires c.Comp? && k == |c.specs| && Good(s0) && Good(s1) && 0 < m <= |s1.frames|
    requires UseInTurn(s0, s1, c.value, l.value, l.shape)
    ensures SpecsInTurn(s0, s1, c, k, l, [], m)
  {
    hide Good, Follows, OrderedUse, Top, OuterView, Sc, WF;
    assert |CompOf(k, l, []).specs| == k;
  }

  lemma CondTurn(s0: Snap, sA: Snap, s1: Snap, c: Expr, k: nat, lcond: LExpr, l: Lowered, rest: seq<LSpec>, m: nat,
                 a: set<Name>, b: set<Name>, ok: bool, ok': bool)
    requires c.Comp? && k < |c.specs| && c.specs[k].Cond? && Good(s0) && Good(sA) && Good(s1) && 0 < m <= |s1.frames|
    requires Effect(s0, sA, a, ok) && Effect(sA, s1, b, ok')
    requires InTurn(s0, sA, c.specs[k].cond, lcond) && SpecsInTurn(sA, s1, c, k + 1, l, rest, m)
    ensures SpecsInTurn(s0, s1, c, k, l, [LCond(lcond)] + rest, m)
  {
    hide Good, Effect, Follows, Ordered, Top, OuterView, Sc, Grows, Order;
    EffectScope(s0, sA, a, ok);
    EffectView(sA, s1, b, ok');
    CompOfNext(k, l, LCond(lcond), rest);
    if WFSpecs(c, k, Dom(s0)) {
      FollowsOn(s0, sA, s1, Order(c.specs[k].cond), OrderSpecs(c, k + 1), a, ok);
      OrderedGrows(c.specs[k].cond, lcond, Sc(s0), Top(sA), Top(s1));
      OrderedSpecsSame(c, CompOf(k + 1, l, rest), CompOf(k, l, [LCond(lcond)] + rest), k + 1, Sc(s0), Top(s1), OuterView(s1, m));
    }
  }

  lemma {:induction false} ResSpecsSame(c: Expr, lc: LExpr, lc': LExpr, k: nat, sc: Scope, v: View, v0: View, bound: set<Name>)
    requires c.Comp? && lc.LComp? && lc'.LComp? && |lc.specs| == |c.specs| == |lc'.specs| && k <= |c.specs|
    requires lc'.vshape == lc.vshape && lc'.value == lc.value && forall i :: k <= i < |c.specs| ==> lc'.specs[i] == lc.specs[i]
    requires ResSpecs(c, lc, k, sc, v, v0, bound)
    ensures ResSpecs(c, lc', k, sc, v, v0, bound)
    decreases |c.specs| - k
  {
    if k < |c.specs| {
      match c.specs[k]
      case Cond(_) => ResSpecsSame(c, lc, lc', k + 1, sc, v, v0, bound);
      case For(x, _) =>
        ResSpecsSame(c, lc, lc', k + 1, Bind1(sc, Id(x)), EnterView(v, lc.specs[k].shape, sc.next), v0, bound + {Id(x)});
    }
  }

  lemma InnermostDone(s0: Snap, s1: Snap, c: Expr, k: nat, l: Lowered, m: nat, bound: set<Name>, t0: S.Analysis, t1: S.Analysis)
    requires c.Comp? && k == |c.specs| && Good(s0) && Good(s1) && 0 < m <= |s1.frames|
    requires UseAnalyzed(s0, s1, c.value, l.value, l.shape, t0, t1)
    ensures SpecsDone(s0, s1, c, k, l, [], m, bound, t0, t1)
  {
    hide StackOk, ScopeOf, Near, FV, WF, ResUse, Effect, Tainted, Top, OuterView, UseInTurn, SpecsInTurn;
    InnermostTurn(s0, s1, c, k, l, m);
    assert FVSpecs(c, k) == FV(c.value) && WFSpecs(c, k, Dom(s0)) == WF(c.value, Dom(s0));
    assert |CompOf(k, l, []).specs| == k;
  }

  lemma OuterGrows(s0: Snap, s1: Snap, m: nat, ns: set<Name>, ok: bool)
    requires Good(s0) && Good(s1) && Effect(s0, s1, ns, ok) && 0 < m <= |s0.frames|
    ensures m <= |s1.frames| && Grows(OuterView(s0, m), OuterView(s1, m))
  {
    GrownOuter(s0.frames, s0.caps, s1.frames, s1.caps, m, IdsOf(ns, Sc(s0)), s0.self.Some?);
  }

  lemma GrownOuter(fs: seq<Frame>, cs: seq<seq<nat>>, fs': seq<Frame>, cs': seq<seq<nat>>, m: nat, added: set<nat>, sup: bool)
    requires Grown(fs, cs, fs', cs', added) && 0 < m <= |fs| && fs[0].defining.Some?
    ensures fs'[0].defining.Some? && Grows(ViewAt(fs[..m], cs[..m], m - 1, sup), ViewAt(fs'[..m], cs'[..m], m - 1, sup))
  {
    forall i | 0 <= i < m ensures FrameGrown(fs[..m][i], cs[..m][i], fs'[..m][i], cs'[..m][i], added) {
      assert FrameGrown(fs[i], cs[i], fs'[i], cs'[i], added);
    }
    GrownView(fs[..m], cs[..m], fs'[..m], cs'[..m], added, m - 1, sup);
  }

  lemma CondDone(s0: Snap, sA: Snap, s1: Snap, c: Expr, k: nat, lcond: LExpr, l: Lowered, rest: seq<LSpec>, m: nat,
                 bound: set<Name>, t0: S.Analysis, ta: S.Analysis, t1: S.Analysis)
    requires c.Comp? && k < |c.specs| && c.specs[k].Cond? && Good(s0) && Good(sA) && Good(s1) && 0 < m <= |s1.frames|
    requires Analyzed(s0, sA, c.specs[k].cond, lcond, t0, ta) && SpecsDone(sA, s1, c, k + 1, l, rest, m, bound, ta, t1)
    ensures SpecsDone(s0, s1, c, k, l, [LCond(lcond)] + rest, m, bound, t0, t1)
  {
    hide StackOk, ScopeOf, Near, FV, WF, Res, Effect, Tainted, Top, OuterView, IdsOf, InTurn, SpecsInTurn;
    var cond, a, b := c.specs[k].cond, FV(c.specs[k].cond), FVSpecs(c, k + 1);
    var ok, ok' := WF(cond, Dom(s0)), WFSpecs(c, k + 1, Dom(s0));
    EffectScope(s0, sA, a, ok);
    EffectTrans(s0, sA, s1, a, b, ok, ok');
    EffectView(sA, s1, b, ok');
    CondTurn(s0, sA, s1, c, k, lcond, l, rest, m, a, b, ok, ok');
    TaintedStep(t0, ta, t1, IdsOf(a, Sc(s0)), IdsOf(b, Sc(s0)), Own(cond, NoObject(s0)), OwnSpecs(c, k + 1, NoObject(s0)), sA, s1,
                b, ok');
    IdsOfUnion(a, b, Sc(s0));
    if ok && ok' {
      ResGrows(cond, lcond, Sc(s0), Top(sA), Top(s1));
      CompOfNext(k, l, LCond(lcond), rest);
      ResSpecsSame(c, CompOf(k + 1, l, rest), CompOf(k, l, [LCond(lcond)] + rest), k + 1, Sc(s0), Top(s1), OuterView(s1, m), bound);
    }
  }

  lemma CompOfNext(k: nat, l: Lowered, s: LSpec, rest: seq<LSpec>)
    ensures var a, b := CompOf(k + 1, l, rest), CompOf(k, l, [s] + rest);
            && |a.specs| == |b.specs| == k + 1 + |rest| && b.specs[k] == s
            && forall i :: k < i < |a.specs| ==> a.specs[i] == b.specs[i]
  {}

  /** The frame of the iteration variable `x` is open and its body about to be walked. */
  lemma IterReady(sB: Snap, s1: Snap, sE: Snap, c: Expr, k: nat, x: string, m: nat, n0: nat, d: nat, bound: set<Name>)
    requires c.Comp? && k < |c.specs| && c.specs[k].For? && c.specs[k].x == x
    requires InComp(sB, m, n0, d, bound) && Opened(sB, s1, [Id(x)]) && SettledFrom(s1, sE)
    requires Resolvable(sB, IdsOf(FVSpecs(c, k), Sc(sB)))
    ensures InComp(sE, m, n0, d, bound + {Id(x)}) && Resolvable(sE, IdsOf(FVSpecs(c, k + 1), Sc(sE)))
  {
    hide StackOk, ScopeOf, Near, CanResolve, FV, BindAll;
    var b := FVSpecs(c, k + 1);
    assert NameSet([Id(x)]) == {Id(x)};
    IdsOfSubset(b - {Id(x)}, FVSpecs(c, k), Sc(sB));
    InnerResolvable(sB, s1, {Id(x)}, b);
    SettledScope(s1, sE);
    IterInComp(sB, s1, x, m, n0, d, bound);
    forall id | n0 <= id < |sE.defs| ensures sE.defs[id].depth >= d { assert s1.defs[id].depth >= d; }
  }

  lemma IterInComp(sB: Snap, s1: Snap, x: string, m: nat, n0: nat, d: nat, bound: set<Name>)
    requires InComp(sB, m, n0, d, bound) && Opened(sB, s1, [Id(x)])
    ensures InComp(s1, m, n0, d, bound + {Id(x)})
  {
    hide StackOk, ScopeOf, Near, BindAll;
    var t := |sB.frames|;
    forall i | m <= i < |s1.frames| ensures s1.frames[i].defining.Some? && s1.frames[i].defining.value.first >= n0 {
      if i < t { assert s1.frames[i] == s1.frames[..t][i]; }
    }
    forall id | n0 <= id < |s1.defs| ensures s1.defs[id].depth >= d {
      if id < |sB.defs| { assert s1.defs[id].depth == sB.defs[id].depth; }
    }
    forall n | n in bound + {Id(x)} ensures n in Sc(s1).ids && Sc(s1).ids[n] >= n0 {
      assert n in Dom(s1);
      if n != Id(x) { assert n !in NameSet([Id(x)]); }
    }
  }

  lemma IterEffect(sB: Snap, s1: Snap, sE: Snap, sC: Snap, x: string, b: set<Name>, ok: bool, own: bool, t0: S.Analysis, t1: S.Analysis)
    requires Good(sB) && Good(s1) && Opened(sB, s1, [Id(x)]) && SettledFrom(s1, sE) && Good(sE) && Good(sC)
    requires Effect(sE, sC, b, ok) && Tainted(t0, t1, IdsOf(b, Sc(sE)), own, sC)
    ensures var s2 := sC.(depth := s1.depth);
            && Good(s2) && Top(s2) == Top(sC)
            && s2.frames != [] && s2.caps != [] && |sB.defs| <= |s2.defs| && Good(Left(sB, s2))
            && var s3 := Left(sB, s2);
               && Effect(sB, s3, b - {Id(x)}, ok) && Tainted(t0, t1, IdsOf(b - {Id(x)}, Sc(sB)), own || Id(x) in b, s3)
               && FrameOk(TopShape(s2), Top(s3), IdsOf(b - {Id(x)}, Sc(sB))) && TopShape(s2).n == 1
               && EnterView(Top(s3), TopShape(s2), Sc(sB).next) == Top(sC)
    ensures Sc(sE) == Bind1(Sc(sB), Id(x)) && Dom(sE) == Dom(sB) + {Id(x)}
    ensures sC.depth == sB.depth + 1 && sC.self == sB.self && sC.dollar == sB.dollar
  {
    hide StackOk, ScopeOf, Near, Grown, Tainted, Inside, FrameOk, EnterView;
    var s2 := sC.(depth := s1.depth);
    assert NameSet([Id(x)]) == {Id(x)} && Distinct([Id(x)]);
    BindJust(Sc(sB), Id(x));
    EffectNone(s1);
    SettledScope(s1, sE);
    BodyEffect(s1, s1, sE, sC, {}, b, true, ok);
    assert {} + b == b;
    LeaveEffect(sB, s1, s2, {Id(x)}, b, true, ok);
    IterTaint(sB, s1, sE, sC, x, b, ok, own, t0, t1);
  }

  lemma IterTaint(sB: Snap, s1: Snap, sE: Snap, sC: Snap, x: string, b: set<Name>, ok: bool, own: bool, t0: S.Analysis, t1: S.Analysis)
    requires Good(sB) && Good(s1) && Opened(sB, s1, [Id(x)]) && SettledFrom(s1, sE) && Good(sE) && Good(sC) && Sc(sE) == Sc(s1)
    requires Effect(sE, sC, b, ok) && Tainted(t0, t1, IdsOf(b, Sc(sE)), own, sC) && |sB.defs| <= |sC.defs|
    requires sC.frames != [] && sC.caps != []
    ensures Tainted(t0, t1, IdsOf(b - {Id(x)}, Sc(sB)), own || Id(x) in b, Left(sB, sC.(depth := s1.depth)))
  {
    hide StackOk, ScopeOf, Near, Grown, Covered, Weighed, Inside, KeepsOuter, Good, IdsOf;
    var s2 := sC.(depth := s1.depth);
    NoTaint(t0, s1);
    assert IdsOf({}, Sc(s1)) == {} by { NoIds(Sc(s1)); }
    assert {} + b == b && NameSet([Id(x)]) == {Id(x)};
    TwoTaints(t0, t0, t1, {}, b, false, own, Sc(s1), s1, sE, sC, b, ok);
    LeaveTaint(sB, s1, s2, {Id(x)}, b, own, t0, t1, Left(sB, s2));
    assert Meets(b, {Id(x)}) <==> Id(x) in b;
  }

  lemma NoIds(sc: Scope)
    ensures IdsOf({}, sc) == {}
  {}

  lemma IterObject(sB: Snap, s1: Snap, sE: Snap, x: string)
    requires Opened(sB, s1, [Id(x)]) && SettledFrom(s1, sE)
    ensures NoObject(sE) == NoObject(sB)
  {
    hide Inside, Good, Sc;
  }

  lemma BindJust(sc: Scope, n: Name)
    ensures BindAll(sc, [n]) == Bind1(sc, n)
  {
    assert [n][..0] == [];
  }

  /** What the variable's frame captured, and what the frames around it did. */
  lemma IterWalk(sB: Snap, s1: Snap, sE: Snap, sC: Snap, x: string, b: set<Name>, ok: bool, us: seq<Name>)
    requires Good(sB) && Good(s1) && Opened(sB, s1, [Id(x)]) && SettledFrom(s1, sE) && Good(sE) && Good(sC)
    requires Effect(sE, sC, b, ok) && Follows(sE, sC, us)
    ensures var s2 := sC.(depth := s1.depth);
            && s2.frames != [] && s2.caps != [] && |sB.defs| <= |s2.defs| && Good(Left(sB, s2))
            && Follows(sB, Left(sB, s2), Without(us, {Id(x)}))
            && InOrder(TopShape(s2), Top(Left(sB, s2)), Without(us, {Id(x)}), Sc(sB), Sc(sB).next)
  {
    hide StackOk, ScopeOf, Near, Grown, Walked, Inside, InOrder, Hides, BindAll;
    var s2 := sC.(depth := s1.depth);
    assert NameSet([Id(x)]) == {Id(x)};
    EffectNone(s1);
    FollowsNone(s1, s1);
    BodyEffect(s1, s1, sE, sC, {}, b, true, ok);
    FollowsSettled(s1, s1, sE, sC, [], us, {}, true);
    assert [] + us == us && {} + b == b;
    HidesInside(sB, s1, {Id(x)});
    LeaveWalk(sB, s1, s2, {Id(x)}, {Id(x)}, b, ok, us);
  }

  lemma ForTurn(s0: Snap, sB: Snap, s3: Snap, c: Expr, k: nat, lover: LExpr, inv: bool, l: Lowered, rest: seq<LSpec>,
                sh: Shape, v': View, m: nat, a: set<Name>, b: set<Name>, ok: bool, ok': bool)
    requires c.Comp? && k < |c.specs| && c.specs[k].For? && Good(s0) && Good(sB) && Good(s3) && 0 < m <= |sB.frames|
    requires Effect(s0, sB, a, ok) && Effect(sB, s3, b, ok') && m <= |s3.frames| && |rest| == |c.specs| - k - 1
    requires OverInTurn(s0, sB, c.specs[k].over, lover, inv, m) && ClosedHoist(c.specs[k].over, inv, Sc(s0))
    requires WFSpecs(c, k, Dom(s0)) ==>
               var x, us := Id(c.specs[k].x), Without(OrderSpecs(c, k + 1), {Id(c.specs[k].x)});
               && Follows(sB, s3, us) && InOrder(sh, Top(s3), us, Sc(sB), Sc(sB).next)
               && EnterView(Top(s3), sh, Sc(sB).next) == v'
               && OrderedSpecs(c, CompOf(k + 1, l, rest), k + 1, Bind1(Sc(sB), x), v', OuterView(s3, m))
    ensures SpecsInTurn(s0, s3, c, k, l, [LFor(sh, 0, lover, inv)] + rest, m)
  {
    hide Good, Effect, Follows, Ordered, Top, OuterView, Sc, Grows, Order, InOrder, EnterView, Bind1, ClosedHoist;
    var over, x, ls := c.specs[k].over, Id(c.specs[k].x), LFor(sh, 0, lover, inv);
    EffectScope(s0, sB, a, ok);
    EffectView(sB, s3, b, ok');
    OuterGrows(sB, s3, m, b, ok');
    CompOfNext(k, l, ls, rest);
    if WFSpecs(c, k, Dom(s0)) {
      FollowsOn(s0, sB, s3, Order(over), Without(OrderSpecs(c, k + 1), {x}), a, ok);
      OrderedGrows(over, lover, Sc(s0), if inv then OuterView(sB, m) else Top(sB), if inv then OuterView(s3, m) else Top(s3));
      OrderedSpecsSame(c, CompOf(k + 1, l, rest), CompOf(k, l, [ls] + rest), k + 1, Bind1(Sc(s0), x), v', OuterView(s3, m));
    }
  }

  lemma ForTaint(sB: Snap, s3: Snap, c: Expr, k: nat, sc: Scope, top: bool, ok: bool, t0: S.Analysis, ta: S.Analysis, t1: S.Analysis)
    requires c.Comp? && k < |c.specs| && c.specs[k].For?
    requires Tainted(t0, ta, FreeIds(c.specs[k].over, sc), Own(c.specs[k].over, top), sB)
    requires var x, b := Id(c.specs[k].x), FVSpecs(c, k + 1);
             && Tainted(ta, t1, IdsOf(b - {x}, sc), OwnSpecs(c, k + 1, top) || x in b, s3) && Effect(sB, s3, b - {x}, ok)
    ensures Tainted(t0, t1, IdsOf(FVSpecs(c, k), sc), OwnSpecs(c, k, top), s3)
  {
    hide Tainted, Effect, IdsOf, FV, Own;
    var over, b := c.specs[k].over, FVSpecs(c, k + 1) - {Id(c.specs[k].x)};
    TaintedStep(t0, ta, t1, IdsOf(FV(over), sc), IdsOf(b, sc), Own(over, top),
                OwnSpecs(c, k + 1, top) || Id(c.specs[k].x) in FVSpecs(c, k + 1), sB, s3, b, ok);
    IdsOfUnion(FV(over), b, sc);
  }

  lemma ForDone(s0: Snap, sB: Snap, s1: Snap, sE: Snap, sC: Snap, c: Expr, k: nat, lover: LExpr, inv: bool, l: Lowered,
                rest: seq<LSpec>, m: nat, d: nat, bound: set<Name>, t0: S.Analysis, ta: S.Analysis, t1: S.Analysis)
    requires c.Comp? && k < |c.specs| && c.specs[k].For? && Good(s0) && Good(sB) && Good(s1) && Good(sE) && Good(sC)
    requires 0 < m <= |sB.frames| && OverDone(s0, sB, c.specs[k].over, lover, inv, m, d, bound, t0, ta)
    requires Opened(sB, s1, [Id(c.specs[k].x)]) && SettledFrom(s1, sE) && m <= |sC.frames|
    requires SpecsDone(sE, sC, c, k + 1, l, rest, m, bound + {Id(c.specs[k].x)}, ta, t1)
    ensures var s2 := sC.(depth := s1.depth);
            && s2.frames != [] && s2.caps != [] && |sB.defs| <= |s2.defs| && Good(Left(sB, s2)) && m <= |Left(sB, s2).frames|
            && SpecsDone(s0, Left(sB, s2), c, k, l, [LFor(TopShape(s2), 0, lover, inv)] + rest, m, bound, t0, t1)
  {
    hide StackOk, ScopeOf, Near, Grown, Tainted, Inside, FrameOk, EnterView, FV, WF, IdsOf, Top, OuterView, ResSpecs, Opened, Res,
         OverInTurn, SpecsInTurn, ClosedHoist, Hoistable, Own, OwnSpecs, KeepsOuter;
    var x, over := c.specs[k].x, c.specs[k].over;
    var a, b, ok, ok' := FV(over), FVSpecs(c, k + 1), WF(over, Dom(s0)), WFSpecs(c, k + 1, Dom(sE));
    var top := NoObject(s0);
    EffectScope(s0, sB, a, ok);
    IterObject(sB, s1, sE, x);
    IterEffect(sB, s1, sE, sC, x, b, ok', OwnSpecs(c, k + 1, top), ta, t1);
    var s3, sh := Left(sB, sC.(depth := s1.depth)), TopShape(sC.(depth := s1.depth));
    EffectScope(s0, sB, a, ok);
    EffectTrans(s0, sB, s3, a, b - {Id(x)}, ok, ok');
    ForTaint(sB, s3, c, k, Sc(s0), top, ok', t0, ta, t1);
    SizeKept(sB, s3, b - {Id(x)}, ok');
    FrameShape(sh, Top(s3), IdsOf(b - {Id(x)}, Sc(sB)));
    HoistedClosed(s0, over, inv, d);
    ForTurns(s0, sB, s1, sE, sC, c, k, lover, inv, l, rest, m, a, b, ok, ok');
    if ok && ok' {
      LeftOuter(sB, sC, s1.depth, m, b - {Id(x)}, ok');
      EffectView(sB, s3, b - {Id(x)}, ok');
      OuterGrows(sB, s3, m, b - {Id(x)}, ok');
      if inv { ResGrows(over, lover, Sc(s0), OuterView(sB, m), OuterView(s3, m)); }
      else { ResGrows(over, lover, Sc(s0), Top(sB), Top(s3)); }
      ForRes(c, k, lover, inv, l, rest, sh, Sc(s0), Top(s3), OuterView(s3, m), Top(sC), bound);
    }
  }

  lemma ForTurns(s0: Snap, sB: Snap, s1: Snap, sE: Snap, sC: Snap, c: Expr, k: nat, lover: LExpr, inv: bool, l: Lowered,
                 rest: seq<LSpec>, m: nat, a: set<Name>, b: set<Name>, ok: bool, ok': bool)
    requires c.Comp? && k < |c.specs| && c.specs[k].For? && Good(s0) && Good(sB) && Good(s1) && Good(sE) && Good(sC)
    requires 0 < m <= |sB.frames| && m <= |sC.frames| && Effect(s0, sB, a, ok) && Effect(sE, sC, b, ok')
    requires OverInTurn(s0, sB, c.specs[k].over, lover, inv, m) && ClosedHoist(c.specs[k].over, inv, Sc(s0))
    requires SpecsInTurn(sE, sC, c, k + 1, l, rest, m)
    requires Opened(sB, s1, [Id(c.specs[k].x)]) && SettledFrom(s1, sE)
    requires Sc(sE) == Bind1(Sc(sB), Id(c.specs[k].x)) && Dom(sE) == Dom(sB) + {Id(c.specs[k].x)} && sC.self == sB.self
    requires var s2 := sC.(depth := s1.depth);
             && s2.frames != [] && s2.caps != [] && |sB.defs| <= |s2.defs| && Good(Left(sB, s2)) && m <= |Left(sB, s2).frames|
             && var s3 := Left(sB, s2);
                && Effect(sB, s3, b - {Id(c.specs[k].x)}, ok')
                && ShapeOk(TopShape(s2), Top(s3)) && EnterView(Top(s3), TopShape(s2), Sc(sB).next) == Top(sC)
    ensures var s2 := sC.(depth := s1.depth);
            SpecsInTurn(s0, Left(sB, s2), c, k, l, [LFor(TopShape(s2), 0, lover, inv)] + rest, m)
  {
    hide StackOk, ScopeOf, Near, Grown, Walked, Inside, FrameOk, EnterView, Opened, InOrder, Effect, OverInTurn, Top,
         OuterView, OrderedSpecs, Bind1, SettledFrom, ClosedHoist;
    var x, s2 := c.specs[k].x, sC.(depth := s1.depth);
    EffectScope(s0, sB, a, ok);
    if WFSpecs(c, k, Dom(s0)) {
      IterWalk(sB, s1, sE, sC, x, b, ok', OrderSpecs(c, k + 1));
      LeftOuter(sB, sC, s1.depth, m, b - {Id(x)}, ok');
    }
    ForTurn(s0, sB, Left(sB, s2), c, k, lover, inv, l, rest, TopShape(s2), Top(sC), m, a, b - {Id(x)}, ok, ok');
  }

  lemma SizeKept(s0: Snap, s1: Snap, ns: set<Name>, ok: bool)
    requires Good(s0) && Effect(s0, s1, ns, ok)
    ensures |s1.frames| == |s0.frames|
  {}

  lemma LeftOuter(sB: Snap, sC: Snap, depth: nat, m: nat, ns: set<Name>, ok: bool)
    requires Good(sB) && Good(sC) && 0 < m <= |sB.frames| && m <= |sC.frames| && |sB.defs| <= |sC.defs| && sC.caps != []
    requires var s3 := Left(sB, sC.(depth := depth)); Good(s3) && Effect(sB, s3, ns, ok) && m <= |s3.frames|
    requires sC.self == sB.self
    ensures OuterView(Left(sB, sC.(depth := depth)), m) == OuterView(sC, m)
  {
    hide StackOk, ScopeOf, Near, Grown;
    var s3 := Left(sB, sC.(depth := depth));
    NonEmpty(sC);
    NonEmpty(s3);
    assert s3.frames[..m] == sC.frames[..m] && s3.caps[..m] == sC.caps[..m];
  }

  lemma ForRes(c: Expr, k: nat, lover: LExpr, inv: bool, l: Lowered, rest: seq<LSpec>, sh: Shape, sc: Scope, v: View,
               v0: View, v': View, bound: set<Name>)
    requires c.Comp? && k < |c.specs| && c.specs[k].For? && |rest| == |c.specs| - k - 1
    requires Res(c.specs[k].over, lover, sc, if inv then v0 else v) && (inv ==> FV(c.specs[k].over) !! bound)
    requires FrameOk(sh, v, IdsOf(FVSpecs(c, k + 1) - {Id(c.specs[k].x)}, sc)) && sh.n == 1 && EnterView(v, sh, sc.next) == v'
    requires ResSpecs(c, CompOf(k + 1, l, rest), k + 1, Bind1(sc, Id(c.specs[k].x)), v', v0, bound + {Id(c.specs[k].x)})
    ensures ResSpecs(c, CompOf(k, l, [LFor(sh, 0, lover, inv)] + rest), k, sc, v, v0, bound)
  {
    hide Res, EnterView;
    var ls, x := LFor(sh, 0, lover, inv), c.specs[k].x;
    CompOfNext(k, l, ls, rest);
    ResSpecsSame(c, CompOf(k + 1, l, rest), CompOf(k, l, [ls] + rest), k + 1, Bind1(sc, Id(x)), v', v0, bound + {Id(x)});
    IdsOfSubset(FVSpecs(c, k + 1) - {Id(x)}, FVSpecs(c, k), sc);
  }

  lemma SpecParts(s: Snap, c: Expr, k: nat)
    requires c.Comp? && k <= |c.specs| && Good(s) && Resolvable(s, IdsOf(FVSpecs(c, k), Sc(s)))
    ensures k == |c.specs| ==> Resolvable(s, FreeIds(c.value, Sc(s)))
    ensures k < |c.specs| && c.specs[k].For? ==> Resolvable(s, FreeIds(c.specs[k].over, Sc(s)))
    ensures k < |c.specs| && c.specs[k].Cond? ==>
              Resolvable(s, FreeIds(c.specs[k].cond, Sc(s))) && Resolvable(s, IdsOf(FVSpecs(c, k + 1), Sc(s)))
  {
    hide StackOk, ScopeOf, Near, CanResolve, FV;
    if k < |c.specs| {
      match c.specs[k]
      case For(x, over) => IdsOfSubset(FV(over), FVSpecs(c, k), Sc(s));
      case Cond(cond) =>
        IdsOfSubset(FV(cond), FVSpecs(c, k), Sc(s));
        IdsOfSubset(FVSpecs(c, k + 1), FVSpecs(c, k), Sc(s));
    }
  }

  lemma StillResolvable(s0: Snap, s1: Snap, ns: set<Name>, ok: bool, part: set<Name>)
    requires Good(s0) && Good(s1) && Effect(s0, s1, ns, ok) && Resolvable(s0, IdsOf(part, Sc(s0)))
    ensures Resolvable(s1, IdsOf(part, Sc(s1)))
  {
    hide StackOk, ScopeOf, Near, CanResolve, Resolvable, IdsOf, Effect;
    EffectScope(s0, s1, ns, ok);
    EffectResolvable(s0, s1, ns, ok, IdsOf(part, Sc(s0)));
  }

  lemma CompStart(s: Snap)
    requires Good(s)
    ensures InComp(s, |s.frames|, |s.defs|, s.depth, {}) && |s.frames| > 0
  {}

  lemma CompIsDone(s0: Snap, s1: Snap, e: Expr, l: Lowered, specs: seq<LSpec>, m: nat, t0: S.Analysis, t1: S.Analysis)
    requires e.Comp? && Good(s0) && Good(s1) && 0 < m == |s0.frames| <= |s1.frames|
    requires SpecsDone(s0, s1, e, 0, l, specs, m, {}, t0, t1)
    ensures Analyzed(s0, s1, e, LComp(l.shape, l.value, specs), t0, t1)
  {
    hide StackOk, ScopeOf, Near, Tainted, IdsOf, Grown, Top, OuterView, FVSpecs, WFSpecs, ResSpecs, OrderedSpecs, Follows;
    SizeKept(s0, s1, FVSpecs(e, 0), WFSpecs(e, 0, Dom(s0)));
    OutermostView(s1);
    assert CompOf(0, l, specs) == LComp(l.shape, l.value, specs) by { assert seq(0, _ => LCond(LBad)) + specs == specs; }
  }

  lemma InCompSizes(s: Snap, m: nat, n0: nat, d: nat, bound: set<Name>)
    requires InComp(s, m, n0, d, bound)
    ensures Good(s) && 0 < m <= |s.frames| == |s.caps| && d <= s.depth
  {}

  lemma UseSize(s0: Snap, s1: Snap, e: Expr, l: Lowered, t0: S.Analysis, t1: S.Analysis)
    requires Good(s0) && Good(s1) && UseAnalyzed(s0, s1, e, l.value, l.shape, t0, t1)
    ensures |s1.frames| == |s0.frames|
  {}

  lemma AnalyzedEffect(s0: Snap, s1: Snap, e: Expr, le: LExpr, t0: S.Analysis, t1: S.Analysis)
    requires Good(s0) && Good(s1) && Analyzed(s0, s1, e, le, t0, t1)
    ensures Effect(s0, s1, FV(e), WF(e, Dom(s0)))
  {}

  lemma OverSize(s0: Snap, s1: Snap, over: Expr, le: LExpr, inv: bool, m: nat, n0: nat, d: nat, bound: set<Name>,
                 t0: S.Analysis, t1: S.Analysis)
    requires Good(s0) && InComp(s1, m, n0, d, bound) && OverDone(s0, s1, over, le, inv, m, d, bound, t0, t1)
    ensures 0 < m <= |s1.frames| && Effect(s0, s1, FV(over), WF(over, Dom(s0)))
  {}

  lemma OneSlot(slots: seq<Option<nat>>, n: Name, total: nat)
    requires Slots(slots, [n], 0, total)
    ensures |slots| == 1 && slots[0] == Some(0)
  {
    assert Distinct([n]);
  }

  lemma SettledTouched(s: Snap, s': Snap, s'': Snap)
    requires Touched(s, s') && SettledFrom(s', s'')
    ensures SettledFrom(s, s'')
  {
    hide KeepsOuter;
    KeepsOuterOn(s.defs, s'.defs, s''.defs, s.depth, s.depth);
  }

  lemma IterDepth(sB: Snap, s1: Snap, sE: Snap, sC: Snap, c: Expr, k: nat, l: Lowered, rest: seq<LSpec>, m: nat,
                  bound: set<Name>, t0: S.Analysis, t1: S.Analysis)
    requires Good(sB) && Good(s1) && Good(sE) && Good(sC) && c.Comp? && k < |c.specs| && c.specs[k].For? && 0 < m <= |sC.frames|
    requires Opened(sB, s1, [Id(c.specs[k].x)]) && SettledFrom(s1, sE)
    requires SpecsDone(sE, sC, c, k + 1, l, rest, m, bound + {Id(c.specs[k].x)}, t0, t1)
    ensures sC.depth == sB.depth + 1 && s1.depth == sB.depth && sC.self == sB.self && sC.dollar == sB.dollar
    ensures |sB.defs| <= |sC.defs| && sC.frames != [] && sC.caps != []
    ensures forall i :: |sB.defs| <= i < |sC.defs| ==> sC.defs[i].name.Some?
  {
    hide StackOk, ScopeOf, Near, Grown, Tainted, Inside, FV, WF, IdsOf, Top, OuterView, ResSpecs;
    NonEmpty(sC);
  }

  lemma CompFree(e: Expr, sc: Scope)
    requires e.Comp?
    ensures FreeIds(e, sc) == IdsOf(FVSpecs(e, 0), sc)
  {}
}
