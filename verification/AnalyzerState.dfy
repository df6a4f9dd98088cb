/** The analyzer's state as a value: what analysing a piece of syntax does to it depends only on the
    names the piece mentions, and frames are entered and left in pairs. */
module AnalyzerState {
  import opened Options
  import opened Syntax
  import opened Resolution
  import opened ResolutionLaws
  import opened CaptureStack
  import opened NameStacks
  import S = Siblings

  datatype Snap = Snap(defs: seq<LocalDef>, depth: nat, self: Option<nat>, dollar: Option<nat>, selfUsed: bool,
                       superUsed: bool, dollarUsed: bool, frames: seq<Frame>, caps: seq<seq<nat>>, errored: bool)

  ghost function Sc(s: Snap): Scope { ScopeOf(s.defs, s.self, s.dollar) }

  ghost function Dom(s: Snap): set<Name> { Sc(s).ids.Keys }

  ghost predicate Good(s: Snap) {
    && StackOk(s.frames, s.caps, |s.defs|)
    && s.self.Some? == s.dollar.Some?
    && (s.self.Some? ==> Nameless(s.defs, s.self.value) && Nameless(s.defs, s.dollar.value))
  }

  /** The local that stands for an object. */
  ghost predicate Nameless(defs: seq<LocalDef>, id: nat) { id < |defs| && defs[id].name.None? }

  ghost function Top(s: Snap): View
    requires Good(s)
  {
    ViewAt(s.frames, s.caps, |s.frames| - 1, s.self.Some?)
  }

  ghost predicate Resolvable(s: Snap, ids: set<nat>)
    requires s.frames != []
  {
    forall id :: id in ids ==> CanResolve(s.frames, |s.frames| - 1, id)
  }

  /** Scope, depth and frames are as before, except that captures of the ids that `ns` refers to may
      have been appended; the usage flags record exactly which of `self`, `super` and `$` occur; an
      error is recorded exactly when the piece is not well formed. */
  ghost predicate Effect(s0: Snap, s1: Snap, ns: set<Name>, ok: bool) {
    && SameDefs(s0.defs, s1.defs) && KeepsOuter(s0.defs, s1.defs, s0.depth)
    && s1.depth == s0.depth && s1.self == s0.self && s1.dollar == s0.dollar
    && Grown(s0.frames, s0.caps, s1.frames, s1.caps, IdsOf(ns, Sc(s0)))
    && s1.selfUsed == (s0.selfUsed || (s0.self.Some? && Self in ns))
    && s1.superUsed == (s0.superUsed || (s0.self.Some? && Super in ns))
    && s1.dollarUsed == (s0.dollarUsed || (s0.dollar.Some? && Dollar in ns))
    && s1.errored == (s0.errored || !ok)
  }

  /** Depths are 32-bit. */
  function Clamp(d: nat): S.Depth { if d <= S.MAX then d else S.MAX }

  function Analyses(ds: seq<LocalDef>): (r: seq<S.Analysis>)
    ensures |r| == |ds| && forall i :: 0 <= i < |ds| ==> r[i] == ds[i].analysis
  {
    seq(|ds|, i requires 0 <= i < |ds| => ds[i].analysis)
  }

  function Depths(ds: seq<LocalDef>): (r: seq<S.Depth>)
    ensures |r| == |ds| && forall i :: 0 <= i < |ds| ==> r[i] == Clamp(ds[i].depth)
  {
    seq(|ds|, i requires 0 <= i < |ds| => Clamp(ds[i].depth))
  }

  /** No local frame that `t` records lies at depth `d` or further in. */
  predicate Within(t: S.Analysis, d: nat) { S.Level(t) <= d }

  /** Mentioning the local `id` keeps a taint within depth `d`: the local's own frame, and what its
      value depends on as far as that is known. */
  ghost predicate Outer(defs: seq<LocalDef>, id: nat, d: nat)
    requires id < |defs|
  {
    Clamp(defs[id].depth) < d && (defs[id].name.Some? && defs[id].analyzed ==> Within(defs[id].analysis, d))
  }

  ghost predicate AllOuter(defs: seq<LocalDef>, ids: set<nat>, d: nat) {
    forall id :: id in ids ==> id < |defs| && Outer(defs, id, d)
  }

  /** Nothing new has been found out about the locals of the frames around the one at `depth`. */
  ghost predicate KeepsOuter(ds: seq<LocalDef>, es: seq<LocalDef>, depth: nat) {
    |es| == |ds| && forall id, d :: 0 <= id < |ds| && 0 <= d <= Clamp(depth) ==> (Outer(es, id, d) <==> Outer(ds, id, d))
  }

  /** `t1` extends `t0` and records the frame depth of every id in `ids`. */
  ghost predicate Covered(t0: S.Analysis, t1: S.Analysis, ids: set<nat>, defs: seq<LocalDef>) {
    && S.Covers(t1, t0)
    && forall id :: id in ids ==> id < |defs| && t1.loc <= Clamp(defs[id].depth) <= t1.locMax
  }

  /** How a taint grows over a piece that mentions `ids` from around it, and locals of its own if
      `own`: it stays within a depth around the piece exactly if every part of that does. */
  ghost predicate Weighed(t0: S.Analysis, t1: S.Analysis, ids: set<nat>, own: bool, s: Snap) {
    forall d :: 0 <= d <= Clamp(s.depth) ==> (Within(t1, d) <==> Within(t0, d) && !own && AllOuter(s.defs, ids, d))
  }

  ghost predicate Tainted(t0: S.Analysis, t1: S.Analysis, ids: set<nat>, own: bool, s: Snap) {
    Covered(t0, t1, ids, s.defs) && Weighed(t0, t1, ids, own, s)
  }

  /** No object encloses the point the walk has reached. */
  ghost predicate NoObject(s: Snap) { s.dollar.None? }

  /** The last entry of a name's stack is the id of its innermost binder. */
  lemma InnermostId(s: Snap, x: string)
    requires Good(s)
    ensures x in NameMap(s.defs) <==> Id(x) in Dom(s)
    ensures x in NameMap(s.defs) ==>
              var ids := NameMap(s.defs)[x];
              && ids != [] && ids[|ids| - 1] == Sc(s).ids[Id(x)] < |s.defs| && Sc(s).ids[Id(x)] in IdsOf({Id(x)}, Sc(s))
              && s.defs[Sc(s).ids[Id(x)]].name == Some(x)
  {
    StacksOf(s.defs, x);
    if x in NameMap(s.defs) { LiveId(s, Id(x)); }
  }

  /** Noting something about one local does not change the scope. */
  lemma Marked(s: Snap, id: nat, d: LocalDef)
    requires Good(s) && id < |s.defs| && d == s.defs[id].(scratch := d.scratch)
    ensures var s' := s.(defs := s.defs[id := d]);
            && Good(s') && SameDefs(s.defs, s'.defs) && NameMap(s'.defs) == NameMap(s.defs)
            && KeepsOuter(s.defs, s'.defs, s.depth)
    ensures SameDefs(s.defs, s.defs) && KeepsOuter(s.defs, s.defs, s.depth)
  {
    SameNames(s.defs, s.defs[id := d]);
  }

  lemma OnlyObjectNames(s: Snap)
    requires Good(s)
    ensures Self in Dom(s) <==> s.self.Some?
    ensures Super in Dom(s) <==> s.self.Some?
    ensures Dollar in Dom(s) <==> s.self.Some?
  {
    forall n | n in NamesPart(s.defs) ensures n.Id? { OnlyNames(s.defs, n); }
  }

  lemma LiveId(s: Snap, n: Name)
    requires Good(s) && n in Sc(s).ids
    ensures Sc(s).ids[n] < |s.defs| && IdsOf({n}, Sc(s)) == {Sc(s).ids[n]}
  {
    if n.Id? { OnlyNames(s.defs, n); }
    if n in NamesPart(s.defs) { OnlyNames(s.defs, n); }
  }

  lemma MayResolve(s: Snap, n: Name)
    requires Good(s) && n in Dom(s) && Resolvable(s, IdsOf({n}, Sc(s)))
    ensures CanResolve(s.frames, |s.frames| - 1, Sc(s).ids[n])
  {
    LiveId(s, n);
  }

  lemma SuperUse(s0: Snap, s1: Snap, t0: S.Analysis, t1: S.Analysis)
    requires Good(s0) && s0.self.Some? && s1 == s0.(superUsed := true)
    requires Mentioned(t0, t1, s0.defs[s0.self.value])
    ensures Good(s1) && Effect(s0, s1, {Super}, true) && Tainted(t0, t1, IdsOf({Super}, Sc(s0)), false, s1)
  {
    OnlyObjectNames(s0);
    LiveId(s0, Super);
    GrownRefl(s0.frames, s0.caps);
    MentionTaint(t0, t1, s0.self.value, s1);
  }

  /** A local is mentioned: its frame's depth counts, and its value's dependencies once they are known. */
  ghost predicate Mentioned(t0: S.Analysis, t1: S.Analysis, def: LocalDef) {
    && S.Covers(t1, S.DependOnLocal(t0, Clamp(def.depth)))
    && forall d :: 0 <= d ==>
         (Within(t1, d) <==> Within(t0, d) && Clamp(def.depth) < d && (def.name.Some? && def.analyzed ==> Within(def.analysis, d)))
  }

  lemma MentionTaint(t0: S.Analysis, t1: S.Analysis, id: nat, s: Snap)
    requires id < |s.defs| && Mentioned(t0, t1, s.defs[id])
    ensures Tainted(t0, t1, {id}, false, s)
  {
    forall d | 0 <= d <= Clamp(s.depth)
      ensures Within(t1, d) <==> Within(t0, d) && AllOuter(s.defs, {id}, d)
    {
      assert AllOuter(s.defs, {id}, d) <==> Outer(s.defs, id, d);
    }
  }

  lemma MentionLocal(t: S.Analysis, def: LocalDef)
    ensures var u := S.DependOnLocal(t, Clamp(def.depth));
            && (!def.analyzed ==> Mentioned(t, u, def))
            && (def.analyzed && def.name.Some? ==> Mentioned(t, S.TaintBy(u, def.analysis), def))
            && (def.name.None? ==> Mentioned(t, S.DependOnObject(u, Clamp(def.depth)), def))
  {
    S.LevelOfLocal(t, Clamp(def.depth));
    S.LevelOfBoth(S.DependOnLocal(t, Clamp(def.depth)), def.analysis);
  }

  // ---------------------------------------------------------------- composing effects

  lemma EffectScope(s0: Snap, s1: Snap, ns: set<Name>, ok: bool)
    requires Effect(s0, s1, ns, ok)
    ensures Sc(s1) == Sc(s0) && Dom(s1) == Dom(s0) && NoObject(s1) == NoObject(s0)
  {
    SameNames(s0.defs, s1.defs);
  }

  /** Something has been noted about locals. */
  ghost predicate Touched(s: Snap, s': Snap) {
    s' == s.(defs := s'.defs) && SameDefs(s.defs, s'.defs) && KeepsOuter(s.defs, s'.defs, s.depth)
  }

  lemma TouchedEffect(s0: Snap, s1: Snap, s2: Snap, ns: set<Name>, ok: bool)
    requires Good(s1) && Effect(s0, s1, ns, ok) && Touched(s1, s2)
    ensures Effect(s0, s2, ns, ok)
  {
    hide Grown, KeepsOuter, ScopeOf, StackOk;
    KeepsOuterOn(s0.defs, s1.defs, s2.defs, s0.depth, s0.depth);
  }

  lemma TouchedGood(s: Snap, s': Snap)
    requires Good(s) && Touched(s, s')
    ensures Good(s') && NameMap(s'.defs) == NameMap(s.defs) && Top(s') == Top(s) && Sc(s') == Sc(s)
  {
    hide KeepsOuter, StackOk, ViewAt;
    SameNames(s.defs, s'.defs);
  }

  lemma TouchedTwice(s: Snap, s': Snap, s'': Snap)
    requires Touched(s, s') && Touched(s', s'')
    ensures Touched(s, s'')
  {
    hide KeepsOuter;
    KeepsOuterOn(s.defs, s'.defs, s''.defs, s.depth, s.depth);
  }

  lemma EffectNone(s: Snap)
    requires Good(s)
    ensures Effect(s, s, {}, true)
  {
    GrownRefl(s.frames, s.caps);
  }

  lemma EffectTrans(s0: Snap, s1: Snap, s2: Snap, ns: set<Name>, ns': set<Name>, ok: bool, ok': bool)
    requires Effect(s0, s1, ns, ok) && Effect(s1, s2, ns', ok')
    ensures Effect(s0, s2, ns + ns', ok && ok')
  {
    EffectScope(s0, s1, ns, ok);
    GrownTrans(s0.frames, s0.caps, s1.frames, s1.caps, s2.frames, s2.caps,
               IdsOf(ns, Sc(s0)), IdsOf(ns', Sc(s0)), IdsOf(ns + ns', Sc(s0)));
  }

  lemma EffectResolvable(s0: Snap, s1: Snap, ns: set<Name>, ok: bool, ids: set<nat>)
    requires Good(s0) && Good(s1) && Effect(s0, s1, ns, ok) && Resolvable(s0, ids)
    ensures Resolvable(s1, ids)
  {
    forall id | id in ids ensures CanResolve(s1.frames, |s1.frames| - 1, id) {
      GrownResolve(s0.frames, s0.caps, s1.frames, s1.caps, IdsOf(ns, Sc(s0)), |s0.frames| - 1, id);
    }
  }

  lemma EffectView(s0: Snap, s1: Snap, ns: set<Name>, ok: bool)
    requires Good(s0) && Good(s1) && Effect(s0, s1, ns, ok)
    ensures Grows(Top(s0), Top(s1))
  {
    GrownView(s0.frames, s0.caps, s1.frames, s1.caps, IdsOf(ns, Sc(s0)), |s0.frames| - 1, s0.self.Some?);
  }

  lemma IdsOfUnion(a: set<Name>, b: set<Name>, sc: Scope)
    ensures IdsOf(a + b, sc) == IdsOf(a, sc) + IdsOf(b, sc)
  {}

  lemma IdsOfSubset(a: set<Name>, b: set<Name>, sc: Scope)
    requires a <= b
    ensures IdsOf(a, sc) <= IdsOf(b, sc)
  {}

  lemma OuterUnion(ds: seq<LocalDef>, a: set<nat>, b: set<nat>, d: nat)
    ensures AllOuter(ds, a + b, d) <==> AllOuter(ds, a, d) && AllOuter(ds, b, d)
  {
    hide Outer;
    if AllOuter(ds, a, d) && AllOuter(ds, b, d) {
      forall id | id in a + b ensures id < |ds| && Outer(ds, id, d) { assert id in a || id in b; }
    }
    if AllOuter(ds, a + b, d) {
      forall id | id in a || id in b ensures id < |ds| && Outer(ds, id, d) { assert id in a + b; }
    }
  }

  lemma OuterKept(ds: seq<LocalDef>, es: seq<LocalDef>, depth: nat, ids: set<nat>, d: nat)
    requires KeepsOuter(ds, es, depth) && d <= Clamp(depth)
    ensures AllOuter(ds, ids, d) <==> AllOuter(es, ids, d)
  {
    hide Outer;
  }

  lemma KeepsOuterOn(ds: seq<LocalDef>, es: seq<LocalDef>, fs: seq<LocalDef>, d: nat, d': nat)
    requires KeepsOuter(ds, es, d) && KeepsOuter(es, fs, d') && d <= d'
    ensures KeepsOuter(ds, fs, d)
  {
    hide Outer;
    assert Clamp(d) <= Clamp(d');
    forall id, c | 0 <= id < |ds| && 0 <= c <= Clamp(d) ensures Outer(fs, id, c) <==> Outer(ds, id, c) {
      assert Outer(es, id, c) <==> Outer(ds, id, c);
    }
  }

  lemma WeighedStep(t0: S.Analysis, t1: S.Analysis, t2: S.Analysis, a: set<nat>, b: set<nat>, own: bool, own': bool,
                    s1: Snap, s2: Snap)
    requires Weighed(t0, t1, a, own, s1) && Weighed(t1, t2, b, own', s2)
    requires KeepsOuter(s1.defs, s2.defs, s1.depth) && s1.depth <= s2.depth
    ensures Weighed(t0, t2, a + b, own || own', s2.(depth := s1.depth))
  {
    hide Within, AllOuter, KeepsOuter;
    assert Clamp(s1.depth) <= Clamp(s2.depth);
    forall d | 0 <= d <= Clamp(s1.depth)
      ensures Within(t2, d) <==> Within(t0, d) && !(own || own') && AllOuter(s2.defs, a + b, d)
    {
      OuterKept(s1.defs, s2.defs, s1.depth, a, d);
      OuterUnion(s2.defs, a, b, d);
    }
  }

  lemma CoveredStep(t0: S.Analysis, t1: S.Analysis, t2: S.Analysis, a: set<nat>, b: set<nat>, ds: seq<LocalDef>, es: seq<LocalDef>)
    requires Covered(t0, t1, a, ds) && Covered(t1, t2, b, es) && SameDefs(ds, es)
    ensures Covered(t0, t2, a + b, es)
  {}

  lemma TaintedStep(t0: S.Analysis, t1: S.Analysis, t2: S.Analysis, a: set<nat>, b: set<nat>, own: bool, own': bool,
                    s1: Snap, s2: Snap, ns: set<Name>, ok: bool)
    requires Tainted(t0, t1, a, own, s1) && Tainted(t1, t2, b, own', s2) && Effect(s1, s2, ns, ok)
    ensures Tainted(t0, t2, a + b, own || own', s2)
  {
    hide Covered, Weighed, SameDefs, KeepsOuter, Grown;
    CoveredStep(t0, t1, t2, a, b, s1.defs, s2.defs);
    WeighedStep(t0, t1, t2, a, b, own, own', s1, s2);
  }

  lemma SameTaint(t0: S.Analysis, t1: S.Analysis, ids: set<nat>, own: bool, s: Snap, s': Snap)
    requires Tainted(t0, t1, ids, own, s) && SameDefs(s.defs, s'.defs) && KeepsOuter(s.defs, s'.defs, s.depth) && s'.depth == s.depth
    ensures Tainted(t0, t1, ids, own, s')
  {
    hide Within, AllOuter, KeepsOuter;
    forall d | 0 <= d <= Clamp(s.depth) ensures AllOuter(s.defs, ids, d) <==> AllOuter(s'.defs, ids, d) {
      OuterKept(s.defs, s'.defs, s.depth, ids, d);
    }
  }

  datatype Lowered = Lowered(shape: Shape, value: LExpr)

  // ---------------------------------------------------------------- closures without locals

  ghost function PushedUse(s: Snap): Snap {
    s.(frames := s.frames + [Frame(None, NoCaptures, [])], caps := s.caps + [[]])
  }

  ghost function Popped(s: Snap): Snap
    requires s.frames != [] && s.caps != []
  {
    s.(frames := s.frames[..|s.frames| - 1], caps := s.caps[..|s.caps| - 1])
  }

  ghost function TopShape(s: Snap): Shape
    requires s.frames != []
  {
    var f := s.frames[|s.frames| - 1];
    Shape(f.sources, if f.defining.Some? then f.defining.value.n else 0)
  }

  lemma PushUseGood(s: Snap, ids: set<nat>)
    requires Good(s) && Resolvable(s, ids)
    ensures Good(PushedUse(s)) && Resolvable(PushedUse(s), ids) && Sc(PushedUse(s)) == Sc(s)
  {
    PushOk(s.frames, s.caps, |s.defs|, None);
    forall id | id in ids ensures CanResolve(PushedUse(s).frames, |s.frames|, id) {
      ResolvePrefix(s.frames, [Frame(None, NoCaptures, [])], |s.frames| - 1, id);
    }
  }

  lemma {:induction false} ResolvePrefix(fs: seq<Frame>, more: seq<Frame>, i: nat, id: nat)
    requires i < |fs|
    ensures CanResolve(fs + more, i, id) <==> CanResolve(fs, i, id)
    decreases i
  {
    if i > 0 { ResolvePrefix(fs, more, i - 1, id); }
  }

  lemma GrownBelow(fs: seq<Frame>, cs: seq<seq<nat>>, f: Frame, fs': seq<Frame>, cs': seq<seq<nat>>, added: set<nat>)
    requires |cs| == |fs| && Grown(fs + [f], cs + [[]], fs', cs', added)
    ensures Grown(fs, cs, fs'[..|fs|], cs'[..|cs|], added)
    ensures fs'[|fs|].defining == f.defining && forall id :: id in cs'[|fs|] ==> id in added
  {
    assert FrameGrown((fs + [f])[|fs|], (cs + [[]])[|fs|], fs'[|fs|], cs'[|fs|], added);
    forall i | 0 <= i < |fs| ensures FrameGrown(fs[i], cs[i], fs'[..|fs|][i], cs'[..|cs|][i], added) {
      assert FrameGrown((fs + [f])[i], (cs + [[]])[i], fs'[i], cs'[i], added);
    }
  }

  /** Leaving a closure without locals: its captures became captures of the frames below, and its
      shape turns the view outside into the view inside. */
  lemma PopUse(s0: Snap, s1: Snap, ns: set<Name>, ok: bool)
    requires Good(s0) && Good(s1) && Effect(PushedUse(s0), s1, ns, ok)
    ensures s1.frames != [] && s1.caps != [] && Good(Popped(s1)) && Effect(s0, Popped(s1), ns, ok)
    ensures var sh := TopShape(s1); CapsOnly(sh) && ShapeOk(sh, Top(Popped(s1))) && UseView(Top(Popped(s1)), sh) == Top(s1)
  {
    hide Grown, StackOk, ScopeOf;
    StackLengths(s0, s1, ns, ok);
    GrownBelow(s0.frames, s0.caps, Frame(None, NoCaptures, []), s1.frames, s1.caps, IdsOf(ns, Sc(s0)));
    StackEnds(s1);
    PopOk(s1.frames, s1.caps, |s1.defs|, |s1.defs|);
    ShapeOfTop(s1.frames, s1.caps, |s1.defs|, s1.self.Some?);
  }

  lemma StackLengths(s0: Snap, s1: Snap, ns: set<Name>, ok: bool)
    requires Good(s0) && Good(s1) && Effect(PushedUse(s0), s1, ns, ok)
    ensures |s0.frames| == |s0.caps| > 0 && |s1.frames| == |s1.caps| == |s0.frames| + 1
  {}

  lemma StackEnds(s: Snap)
    requires Good(s)
    ensures forall i :: 0 <= i < |s.frames| && s.frames[i].defining.Some? ==>
              s.frames[i].defining.value.first + s.frames[i].defining.value.n <= |s.defs|
  {}

  // ---------------------------------------------------------------- frames with locals

  ghost function PushedFrame(s: Snap): Snap {
    s.(frames := s.frames + [Frame(Some(Defining(|s.defs|, 0)), NoCaptures, [])], caps := s.caps + [[]])
  }

  lemma PushFrameGood(s: Snap)
    requires Good(s)
    ensures Good(PushedFrame(s)) && Sc(PushedFrame(s)) == Sc(s)
  {
    PushOk(s.frames, s.caps, |s.defs|, Some(Defining(|s.defs|, 0)));
  }

  /** The innermost frame holds the locals from `first` on. */
  ghost predicate FrameOpen(s: Snap, first: nat) {
    && s.frames != [] && first <= |s.defs|
    && s.frames[|s.frames| - 1].defining == Some(Defining(first, |s.defs| - first))
  }

  ghost function Defined(s: Snap, d: LocalDef): Snap
    requires s.frames != [] && s.frames[|s.frames| - 1].defining.Some?
  {
    var t := |s.frames| - 1;
    var f := s.frames[t];
    s.(defs := s.defs + [d],
       frames := s.frames[t := f.(defining := Some(f.defining.value.(n := f.defining.value.n + 1)))])
  }

  lemma DefinedGood(s: Snap, d: LocalDef, first: nat)
    requires Good(s) && FrameOpen(s, first)
    ensures Good(Defined(s, d)) && FrameOpen(Defined(s, d), first)
  {
    DefineOk(s.frames, s.caps, |s.defs|);
  }

  /** `s1` is `s0` after allocating the names `ns`, leaving out the second and later occurrences of
      a name, each of which is an error. */
  ghost predicate Allocated(s0: Snap, s1: Snap, ns: seq<Name>) {
    && Good(s1) && |s0.defs| <= |s1.defs| && s1.defs[..|s0.defs|] == s0.defs && s1.caps == s0.caps
    && s1.depth == s0.depth && s1.self == s0.self && s1.dollar == s0.dollar
    && s1.selfUsed == s0.selfUsed && s1.superUsed == s0.superUsed && s1.dollarUsed == s0.dollarUsed
    && |s1.frames| == |s0.frames| > 0 && s1.frames[..|s0.frames| - 1] == s0.frames[..|s0.frames| - 1]
    && s1.frames[|s0.frames| - 1].captures == s0.frames[|s0.frames| - 1].captures
    && s1.frames[|s0.frames| - 1].sources == s0.frames[|s0.frames| - 1].sources
    && (forall i :: |s0.defs| <= i < |s1.defs| ==> s1.defs[i].depth == s0.depth && s1.defs[i].name.Some?)
    && s1.errored == (s0.errored || !Distinct(ns))
    && (forall n :: n in Sc(s1).ids <==> n in Sc(s0).ids || n in ns)
    && (forall n :: n in Sc(s0).ids && n !in ns ==> Sc(s1).ids[n] == Sc(s0).ids[n])
    && (forall n :: n in ns ==> |s0.defs| <= Sc(s1).ids[n])
    && (Distinct(ns) ==> Sc(s1) == BindAll(Sc(s0), ns) && |s1.defs| == |s0.defs| + |ns|)
  }

  lemma AllocatedNone(s: Snap, first: nat)
    requires Good(s) && FrameOpen(s, first)
    ensures Allocated(s, s, [])
  {}

  lemma AllocatedNew(s0: Snap, s1: Snap, ns: seq<Name>, x: string, d: LocalDef, first: nat)
    requires Good(s0) && Allocated(s0, s1, ns) && FrameOpen(s1, first) && d.name == Some(x) && d.depth == s1.depth
    requires Id(x) !in ns
    ensures Allocated(s0, Defined(s1, d), ns + [Id(x)]) && FrameOpen(Defined(s1, d), first) && Good(Defined(s1, d))
  {
    hide StackOk;
    DefinedGood(s1, d, first);
    BindOne(s1.defs, d, s1.self, s1.dollar);
    assert (ns + [Id(x)])[..|ns|] == ns;
    assert Distinct(ns + [Id(x)]) <==> Distinct(ns);
  }

  lemma AllocatedTwice(s0: Snap, s1: Snap, ns: seq<Name>, x: string)
    requires Allocated(s0, s1, ns) && Id(x) in ns
    ensures !Distinct(ns + [Id(x)]) && Allocated(s0, s1.(errored := true), ns + [Id(x)])
  {
    var i :| 0 <= i < |ns| && ns[i] == Id(x);
    assert (ns + [Id(x)])[i] == (ns + [Id(x)])[|ns|];
  }

  /** Number of names that got a slot. */
  function CountSome(slots: seq<Option<nat>>): (n: nat)
    ensures n <= |slots|
  {
    if slots == [] then 0 else CountSome(slots[..|slots| - 1]) + if slots[|slots| - 1].Some? then 1 else 0
  }

  lemma {:induction false} CountPrefix(slots: seq<Option<nat>>, k: nat)
    requires k <= |slots|
    ensures CountSome(slots[..k]) <= CountSome(slots)
    ensures k < |slots| && slots[k].Some? ==> CountSome(slots[..k]) < CountSome(slots)
    decreases |slots|
  {
    if k == |slots| {
      assert slots[..k] == slots;
    } else if k < |slots| - 1 {
      CountPrefix(slots[..|slots| - 1], k);
      assert slots[..|slots| - 1][..k] == slots[..k];
    }
  }

  ghost predicate Numbered(slots: seq<Option<nat>>, off: nat) {
    forall j :: 0 <= j < |slots| && slots[j].Some? ==> slots[j].value == off + CountSome(slots[..j])
  }

  ghost predicate AllNumbered(slots: seq<Option<nat>>, off: nat) {
    forall j :: 0 <= j < |slots| ==> slots[j] == Some(off + j)
  }

  /** Slots handed out in order, from `off` on, one per name that was not a duplicate. */
  ghost predicate Slots(slots: seq<Option<nat>>, ns: seq<Name>, off: nat, total: nat) {
    |slots| == |ns| && CountSome(slots) == total && Numbered(slots, off) && (Distinct(ns) ==> AllNumbered(slots, off))
  }

  lemma NumberedStep(slots: seq<Option<nat>>, off: nat, s: Option<nat>)
    requires Numbered(slots, off) && (s.Some? ==> s.value == off + CountSome(slots))
    ensures Numbered(slots + [s], off)
  {
    var ss := slots + [s];
    forall j | 0 <= j < |ss| && ss[j].Some? ensures ss[j].value == off + CountSome(ss[..j]) {
      if j < |slots| { assert ss[..j] == slots[..j]; } else { assert ss[..j] == slots; }
    }
  }

  lemma SlotsStart(off: nat)
    ensures Slots([], [], off, 0)
  {}

  lemma DistinctInit(ns: seq<Name>, n: Name)
    requires Distinct(ns + [n])
    ensures Distinct(ns) && n !in ns
  {
    var ms := ns + [n];
    forall i, j | 0 <= i < j < |ns| ensures ns[i] != ns[j] { assert ms[i] != ms[j]; }
    forall i | 0 <= i < |ns| ensures ns[i] != n { assert ms[i] != ms[|ns|]; }
  }

  lemma CountPush(slots: seq<Option<nat>>, s: Option<nat>)
    ensures CountSome(slots + [s]) == CountSome(slots) + if s.Some? then 1 else 0
  {
    assert (slots + [s])[..|slots|] == slots;
  }

  lemma SlotsStep(slots: seq<Option<nat>>, ns: seq<Name>, off: nat, total: nat, n: Name, s: Option<nat>)
    requires Slots(slots, ns, off, total) && (s.Some? <==> n !in ns) && (s.Some? ==> s.value == off + total)
    requires Distinct(ns) ==> total == |ns|
    ensures Slots(slots + [s], ns + [n], off, if s.Some? then total + 1 else total)
  {
    NumberedStep(slots, off, s);
    CountPush(slots, s);
    hide Distinct, Numbered, CountSome, AllNumbered;
    if Distinct(ns + [n]) {
      DistinctInit(ns, n);
      AllNumberedStep(slots, off, s);
    }
  }

  lemma AllNumberedStep(slots: seq<Option<nat>>, off: nat, s: Option<nat>)
    requires AllNumbered(slots, off) && s == Some(off + |slots|)
    ensures AllNumbered(slots + [s], off)
  {}

  lemma AllocatedSize(s0: Snap, s1: Snap, ns: seq<Name>)
    requires Allocated(s0, s1, ns)
    ensures |s0.defs| <= |s1.defs| && (Distinct(ns) ==> |s1.defs| == |s0.defs| + |ns|)
  {}

  /** A name is already taken in the frame being built exactly when its innermost id is not older
      than the frame. */
  lemma TakenIff(s0: Snap, s1: Snap, ns: seq<Name>, x: string)
    requires Good(s0) && Allocated(s0, s1, ns)
    ensures Id(x) in ns <==> Id(x) in Sc(s1).ids && Sc(s1).ids[Id(x)] >= |s0.defs|
  {
    if Id(x) !in ns && Id(x) in Sc(s1).ids { LiveId(s0, Id(x)); }
  }

  lemma {:induction false} NearEnds(fs: seq<Frame>, cs: seq<seq<nat>>, next: nat, i: nat)
    requires StackOk(fs, cs, next) && i < |fs|
    ensures Near(fs, i).first + Near(fs, i).n <= next
    decreases i
  {
    if fs[i].defining.None? { NearEnds(fs, cs, next, i - 1); }
  }

  /** Ids captured below a frame do not belong to it. */
  lemma CapturedBelow(s: Snap, i: nat, id: nat, first: nat)
    requires Good(s) && i < |s.frames| && id in s.caps[i] && Near(s.frames, i).first <= first
    ensures id < first
  {
    assert FrameAt(s.frames, s.caps, i);
  }

  /** State after the innermost frame and its locals are gone. */
  ghost function Left(s0: Snap, s: Snap): Snap
    requires s.frames != [] && s.caps != [] && |s0.defs| <= |s.defs|
  {
    Popped(s).(defs := s.defs[..|s0.defs|], self := s0.self, dollar := s0.dollar)
  }

  /** `s1` is `s0` inside a new frame that binds `bound`. */
  ghost predicate Inside(s0: Snap, s1: Snap, bound: set<Name>) {
    && Good(s0) && Good(s1) && |s0.defs| <= |s1.defs| && s1.defs[..|s0.defs|] == s0.defs
    && FrameOpen(s1, |s0.defs|)
    && |s1.frames| == |s0.frames| + 1 && s1.frames[..|s0.frames|] == s0.frames && s1.caps == s0.caps + [[]]
    && s1.frames[|s0.frames|].sources == []
    && (forall n :: n in Sc(s1).ids && n !in bound ==> n in Sc(s0).ids && Sc(s1).ids[n] == Sc(s0).ids[n])
    && (forall n :: n in Sc(s0).ids && n !in bound ==> n in Sc(s1).ids)
    && (forall n :: n in Sc(s1).ids && n in bound ==> Sc(s1).ids[n] >= |s0.defs|)
  }

  lemma InsideDefs(s0: Snap, s1: Snap, bound: set<Name>)
    requires Inside(s0, s1, bound)
    ensures |s0.defs| <= |s1.defs| && s1.defs[..|s0.defs|] == s0.defs
  {}

  lemma InsideIds(s0: Snap, s1: Snap, bound: set<Name>, free: set<Name>, id: nat)
    requires Inside(s0, s1, bound) && id in IdsOf(free, Sc(s1)) && id < |s0.defs|
    ensures id in IdsOf(free - bound, Sc(s0))
  {
    var n :| n in free && n in Sc(s1).ids && Sc(s1).ids[n] == id;
    assert n !in bound;
  }

  lemma LeaveGrown(s0: Snap, s1: Snap, s2: Snap, bound: set<Name>, free: set<Name>, ok: bool)
    requires Inside(s0, s1, bound) && Good(s2) && Effect(s1, s2, free, ok)
    ensures |s2.frames| == |s2.caps| == |s0.frames| + 1 == |s0.caps| + 1
    ensures Grown(s0.frames, s0.caps, s2.frames[..|s0.frames|], s2.caps[..|s0.frames|], IdsOf(free - bound, Sc(s0)))
    ensures s2.frames[|s0.frames|].defining == s1.frames[|s0.frames|].defining
    ensures forall id :: id in s2.caps[|s0.frames|] ==> id in IdsOf(free - bound, Sc(s0))
  {
    hide StackOk, ScopeOf, IdsOf;
    LeaveLengths(s0, s1, s2, bound, free, ok);
    var t, all, ids := |s0.frames|, IdsOf(free, Sc(s1)), IdsOf(free - bound, Sc(s0));
    forall i | 0 <= i < t
      ensures FrameGrown(s0.frames[i], s0.caps[i], s2.frames[..t][i], s2.caps[..t][i], ids)
    {
      assert FrameGrown(s1.frames[i], s1.caps[i], s2.frames[i], s2.caps[i], all);
      assert s1.frames[i] == s1.frames[..t][i] == s0.frames[i];
      forall j | |s0.caps[i]| <= j < |s2.caps[i]| ensures s2.caps[i][j] in ids {
        LowId(s0, s1, s2, bound, free, ok, i, s2.caps[i][j]);
        InsideIds(s0, s1, bound, free, s2.caps[i][j]);
      }
    }
    assert FrameGrown(s1.frames[t], s1.caps[t], s2.frames[t], s2.caps[t], all);
    forall id | id in s2.caps[t] ensures id in ids {
      LowId(s0, s1, s2, bound, free, ok, t, id);
      InsideIds(s0, s1, bound, free, id);
    }
  }

  lemma LeaveLengths(s0: Snap, s1: Snap, s2: Snap, bound: set<Name>, free: set<Name>, ok: bool)
    requires Inside(s0, s1, bound) && Good(s2) && Effect(s1, s2, free, ok)
    ensures |s0.caps| == |s0.frames| > 0 && |s1.frames| == |s1.caps| == |s0.frames| + 1
    ensures |s2.frames| == |s2.caps| == |s0.frames| + 1
  {}

  lemma LowId(s0: Snap, s1: Snap, s2: Snap, bound: set<Name>, free: set<Name>, ok: bool, i: nat, id: nat)
    requires Inside(s0, s1, bound) && Good(s2) && Effect(s1, s2, free, ok)
    requires i <= |s0.frames| && i < |s2.caps| && id in s2.caps[i]
    ensures id < |s0.defs|
  {
    var all := IdsOf(free, Sc(s1));
    GrownNear(s1.frames, s1.caps, s2.frames, s2.caps, all, i);
    if i < |s0.frames| {
      assert s1.frames == s0.frames + [s1.frames[|s0.frames|]];
      NearPrefix(s0.frames, [s1.frames[|s0.frames|]], i);
      NearEnds(s0.frames, s0.caps, |s0.defs|, i);
    }
    CapturedBelow(s2, i, id, |s0.defs|);
  }

  /** Leaving a frame: only what the frame does not bind has been captured outside, and the shape
      it leaves behind turns the view outside into the view of its contents. */
  lemma LeaveFrame(s0: Snap, s1: Snap, s2: Snap, bound: set<Name>, free: set<Name>, ok: bool)
    requires Inside(s0, s1, bound) && Good(s2) && Effect(s1, s2, free, ok)
    ensures s2.frames != [] && s2.caps != [] && |s0.defs| <= |s2.defs| && Good(Left(s0, s2))
    ensures var s3, ids, sh := Left(s0, s2), IdsOf(free - bound, Sc(s0)), TopShape(s2);
            && SameDefs(s0.defs, s3.defs) && Grown(s0.frames, s0.caps, s3.frames, s3.caps, ids)
            && FrameOk(sh, Top(s3), ids) && sh.n == |s1.defs| - |s0.defs|
            && Ids(sh, Top(s3)) == s2.caps[|s2.caps| - 1]
    ensures Top(s2) == View(s2.caps[|s2.caps| - 1], |s0.defs|, |s1.defs| - |s0.defs|, false, s2.self.Some?)
  {
    hide FrameAt, ScopeOf, IdsOf, Grown;
    LeaveGrown(s0, s1, s2, bound, free, ok);
    var t := |s0.frames|;
    var s3 := Left(s0, s2);
    StackEnds(s0);
    assert s3.frames == s2.frames[..t];
    SameEnds(s0.frames, s0.caps, s3.frames, s3.caps, IdsOf(free - bound, Sc(s0)), |s0.defs|);
    PopOk(s2.frames, s2.caps, |s2.defs|, |s0.defs|);
    ShapeOfTop(s2.frames, s2.caps, |s2.defs|, s3.self.Some?);
  }

  lemma SameEnds(fs: seq<Frame>, cs: seq<seq<nat>>, fs': seq<Frame>, cs': seq<seq<nat>>, added: set<nat>, next: nat)
    requires Grown(fs, cs, fs', cs', added)
    requires forall i :: 0 <= i < |fs| && fs[i].defining.Some? ==> fs[i].defining.value.first + fs[i].defining.value.n <= next
    ensures forall i :: 0 <= i < |fs'| && fs'[i].defining.Some? ==>
              fs'[i].defining.value.first + fs'[i].defining.value.n <= next
  {
    forall i | 0 <= i < |fs'| && fs'[i].defining.Some?
      ensures fs'[i].defining.value.first + fs'[i].defining.value.n <= next
    {
      assert FrameGrown(fs[i], cs[i], fs'[i], cs'[i], added);
    }
  }

  // ---------------------------------------------------------------- frames of `local` and of functions

  lemma EnterFrame(s0: Snap, s1: Snap, ns: seq<Name>)
    requires Good(s0) && Allocated(PushedFrame(s0), s1, ns) && FrameOpen(s1, |s0.defs|)
    ensures Inside(s0, s1, NameSet(ns)) && Dom(s1) == Dom(s0) + NameSet(ns)
    ensures Distinct(ns) ==> Sc(s1) == BindAll(Sc(s0), ns)
  {
    hide StackOk, ScopeOf, BindAll;
    assert s1.frames[..|s0.frames|] == s0.frames;
    PushFrameGood(s0);
    forall n | n in Sc(s1).ids && n !in NameSet(ns) ensures n in Sc(s0).ids && Sc(s1).ids[n] == Sc(s0).ids[n] {
      assert n in Sc(PushedFrame(s0)).ids;
    }
  }

  lemma NonEmpty(s: Snap)
    requires Good(s)
    ensures |s.frames| == |s.caps| > 0
  {}

  lemma InnerResolvable(s0: Snap, s1: Snap, bound: set<Name>, free: set<Name>)
    requires Inside(s0, s1, bound) && Resolvable(s0, IdsOf(free - bound, Sc(s0)))
    ensures Resolvable(s1, IdsOf(free, Sc(s1)))
  {
    hide StackOk, ScopeOf;
    var t := |s0.frames|;
    NonEmpty(s0);
    forall id | id in IdsOf(free, Sc(s1)) ensures CanResolve(s1.frames, t, id) {
      var n :| n in free && n in Sc(s1).ids && Sc(s1).ids[n] == id;
      LiveId(s1, n);
      if id < |s0.defs| {
        InsideIds(s0, s1, bound, free, id);
        assert s1.frames == s0.frames + [s1.frames[t]];
        ResolvePrefix(s0.frames, [s1.frames[t]], t - 1, id);
      }
    }
  }

  /** `s1` differs from `s0` only in what its new frame binds. */
  ghost predicate SameAround(s0: Snap, s1: Snap, distinct: bool) {
    && s1.depth == s0.depth && s1.self == s0.self && s1.dollar == s0.dollar && s1.selfUsed == s0.selfUsed
    && s1.superUsed == s0.superUsed && s1.dollarUsed == s0.dollarUsed && s1.errored == (s0.errored || !distinct)
  }

  lemma KeepsOuterBelow(ds: seq<LocalDef>, es: seq<LocalDef>, depth: nat, n: nat)
    requires KeepsOuter(ds, es, depth) && n <= |ds|
    ensures KeepsOuter(ds[..n], es[..n], depth)
  {
    forall id, d | 0 <= id < n && 0 <= d <= Clamp(depth) ensures Outer(es[..n], id, d) <==> Outer(ds[..n], id, d) {
      assert Outer(es, id, d) <==> Outer(ds, id, d);
    }
  }

  lemma LeaveEffect(s0: Snap, s1: Snap, s2: Snap, bound: set<Name>, free: set<Name>, distinct: bool, ok: bool)
    requires Inside(s0, s1, bound) && Good(s2) && Effect(s1, s2, free, ok) && SameAround(s0, s1, distinct)
    requires bound !! SelfNames
    ensures s2.frames != [] && s2.caps != [] && |s0.defs| <= |s2.defs| && Good(Left(s0, s2))
    ensures Effect(s0, Left(s0, s2), free - bound, distinct && ok)
    ensures FrameOk(TopShape(s2), Top(Left(s0, s2)), IdsOf(free - bound, Sc(s0)))
    ensures TopShape(s2).n == |s1.defs| - |s0.defs|
    ensures EnterView(Top(Left(s0, s2)), TopShape(s2), Sc(s0).next) == Top(s2)
  {
    hide Grown, FrameOk, IdsOf, KeepsOuter;
    LeaveFrame(s0, s1, s2, bound, free, ok);
    KeepsOuterBelow(s1.defs, s2.defs, s1.depth, |s0.defs|);
    LeaveShape(s0, s1, s2, bound, free);
  }

  lemma LeaveShape(s0: Snap, s1: Snap, s2: Snap, bound: set<Name>, free: set<Name>)
    requires s2.frames != [] && s2.caps != [] && |s0.defs| <= |s2.defs| && Good(Left(s0, s2)) && Good(s2)
    requires FrameOk(TopShape(s2), Top(Left(s0, s2)), IdsOf(free - bound, Sc(s0)))
    requires Ids(TopShape(s2), Top(Left(s0, s2))) == s2.caps[|s2.caps| - 1] && s2.self == s0.self
    requires |s0.defs| <= |s1.defs| && TopShape(s2).n == |s1.defs| - |s0.defs|
    requires Top(s2) == View(s2.caps[|s2.caps| - 1], |s0.defs|, |s1.defs| - |s0.defs|, false, s2.self.Some?)
    ensures EnterView(Top(Left(s0, s2)), TopShape(s2), Sc(s0).next) == Top(s2)
  {}

  /** What a value depends on is known from here on. */
  ghost predicate Noted(s: Snap, slot: Option<nat>, base: nat, t: S.Analysis) {
    slot.Some? ==> base + slot.value < |s.defs| && s.defs[base + slot.value].analyzed && s.defs[base + slot.value].analysis == t
  }

  /** The locals from `first` on belong to the innermost frame. */
  ghost predicate FrameFrom(s: Snap, first: nat) {
    first <= |s.defs| && forall id :: first <= id < |s.defs| ==> s.defs[id].depth >= s.depth
  }

  lemma FrameKept(s0: Snap, s1: Snap, first: nat, ns: set<Name>, ok: bool)
    requires FrameFrom(s0, first) && Effect(s0, s1, ns, ok)
    ensures FrameFrom(s1, first)
  {
    hide Grown, KeepsOuter;
  }

  lemma FrameTouched(s: Snap, s': Snap, first: nat)
    requires FrameFrom(s, first) && Touched(s, s')
    ensures FrameFrom(s', first)
  {}

  /** What is noted about the locals of a frame does not concern the frames around it. */
  lemma FrameNoted(s: Snap, ds: seq<LocalDef>, first: nat)
    requires FrameFrom(s, first) && SameDefs(s.defs, ds)
    requires forall id :: 0 <= id < first ==> ds[id].analyzed == s.defs[id].analyzed && ds[id].analysis == s.defs[id].analysis
    ensures KeepsOuter(s.defs, ds, s.depth)
  {
    hide Within;
  }

  lemma OpenedFrom(s0: Snap, s1: Snap, ns: seq<Name>)
    requires Opened(s0, s1, ns)
    ensures FrameFrom(s1, |s0.defs|)
  {
    hide Inside;
    InsideDefs(s0, s1, NameSet(ns));
  }

  lemma TouchedSize(s: Snap, s': Snap)
    requires Touched(s, s')
    ensures |s'.defs| == |s.defs| && SameDefs(s.defs, s'.defs)
  {}

  /** The dependency loop changes nothing about the locals it is not told about. */
  lemma SettledInside(s: Snap, ds: seq<LocalDef>, c: S.Closures, ys: seq<S.Analysis>)
    requires FrameFrom(s, c.first) && S.WellShaped(c) && |ds| == |s.defs| == |ys|
    requires forall i :: 0 <= i < |ds| ==> ds[i] == s.defs[i].(analysis := ys[i])
    requires S.Attained(ys, Analyses(s.defs), Depths(s.defs), S.Specs(c))
    ensures KeepsOuter(s.defs, ds, s.depth)
  {
    hide S.Attained, S.Specs, S.WellShaped;
    forall id | 0 <= id < c.first ensures ds[id].analysis == s.defs[id].analysis {
      NoEdgeBelow(c, id);
      S.AttainedAlone(ys, Analyses(s.defs), Depths(s.defs), S.Specs(c), id);
    }
    FrameNoted(s, ds, c.first);
  }

  lemma NoEdgeBelow(c: S.Closures, id: nat)
    requires S.WellShaped(c) && id < c.first
    ensures forall v :: !S.Edge(S.Specs(c), id, v)
  {
    S.IdsFrom(c, |c.shapes|);
  }

  lemma LeaveCovered(s0: Snap, s1: Snap, s2: Snap, bound: set<Name>, free: set<Name>, t0: S.Analysis, t2: S.Analysis)
    requires Inside(s0, s1, bound) && SameDefs(s1.defs, s2.defs) && Covered(t0, t2, IdsOf(free, Sc(s1)), s2.defs)
    ensures Covered(t0, t2, IdsOf(free - bound, Sc(s0)), s2.defs[..|s0.defs|])
  {
    hide StackOk, ScopeOf;
    forall id | id in IdsOf(free - bound, Sc(s0))
      ensures id < |s0.defs| && t2.loc <= Clamp(s2.defs[id].depth) <= t2.locMax
    {
      var n :| n in free - bound && n in Sc(s0).ids && Sc(s0).ids[n] == id;
      LiveId(s0, n);
      assert id in IdsOf(free, Sc(s1));
    }
  }

  /** Of what is mentioned inside a frame, the frame's own names always count. */
  lemma LeaveOuter(s0: Snap, s1: Snap, s2: Snap, bound: set<Name>, free: set<Name>, d: nat)
    requires Inside(s0, s1, bound) && SameDefs(s1.defs, s2.defs) && FrameFrom(s1, |s0.defs|) && s1.depth == s0.depth
    requires bound <= Dom(s1) && d <= Clamp(s0.depth)
    ensures AllOuter(s2.defs, IdsOf(free, Sc(s1)), d) <==>
              !Meets(free, bound) && AllOuter(s2.defs[..|s0.defs|], IdsOf(free - bound, Sc(s0)), d)
  {
    hide StackOk, ScopeOf, Within, Good;
    var ids, outer, ds := IdsOf(free, Sc(s1)), IdsOf(free - bound, Sc(s0)), s2.defs[..|s0.defs|];
    if AllOuter(s2.defs, ids, d) {
      forall n | n in free && n in Sc(s1).ids ensures n !in bound {
        assert Sc(s1).ids[n] in ids;
        assert Outer(s2.defs, Sc(s1).ids[n], d);
      }
      forall id | id in outer ensures id < |ds| && Outer(ds, id, d) {
        var n :| n in free - bound && n in Sc(s0).ids && Sc(s0).ids[n] == id;
        LiveId(s0, n);
        assert id in ids;
        assert Outer(s2.defs, id, d);
      }
    }
    if !Meets(free, bound) && AllOuter(ds, outer, d) {
      forall id | id in ids ensures id < |s2.defs| && Outer(s2.defs, id, d) {
        var n :| n in free && n in Sc(s1).ids && Sc(s1).ids[n] == id;
        assert n !in bound by { assert n in bound ==> n in free * bound; }
        assert id in outer;
        assert Outer(ds, id, d);
      }
    }
  }

  lemma LeaveTaint(s0: Snap, s1: Snap, s2: Snap, bound: set<Name>, free: set<Name>, own: bool, t0: S.Analysis, t2: S.Analysis,
                   s3: Snap)
    requires Inside(s0, s1, bound) && SameDefs(s1.defs, s2.defs) && Tainted(t0, t2, IdsOf(free, Sc(s1)), own, s2)
    requires FrameFrom(s1, |s0.defs|) && s1.depth == s0.depth == s2.depth == s3.depth && bound <= Dom(s1)
    requires s3.defs == s2.defs[..|s0.defs|]
    ensures Tainted(t0, t2, IdsOf(free - bound, Sc(s0)), own || Meets(free, bound), s3)
  {
    hide Inside, Within, AllOuter, Meets, IdsOf, FrameFrom, Covered;
    LeaveCovered(s0, s1, s2, bound, free, t0, t2);
    forall d | 0 <= d <= Clamp(s0.depth)
      ensures Within(t2, d) <==>
                Within(t0, d) && !(own || Meets(free, bound)) && AllOuter(s3.defs, IdsOf(free - bound, Sc(s0)), d)
    {
      LeaveOuter(s0, s1, s2, bound, free, d);
    }
  }

  /** Values analysed (`s1` to `sA`), dependencies settled and depth raised (`sB`), body analysed
      (`sC`): seen from the frame's own depth, one effect. */
  lemma BodyEffect(s1: Snap, sA: Snap, sB: Snap, sC: Snap, a: set<Name>, b: set<Name>, ok: bool, ok': bool)
    requires Good(s1) && Good(sA) && Effect(s1, sA, a, ok) && SettledFrom(sA, sB)
    requires Good(sB) && Good(sC) && Effect(sB, sC, b, ok')
    ensures Good(sC.(depth := s1.depth)) && Top(sC.(depth := s1.depth)) == Top(sC) && Grows(Top(sA), Top(sC))
    ensures Effect(s1, sC.(depth := s1.depth), a + b, ok && ok') && Sc(sB) == Sc(s1)
  {
    hide StackOk, ScopeOf, Grown;
    SettledScope(sA, sB);
    EffectScope(s1, sA, a, ok);
    var sC' := sC.(depth := s1.depth);
    assert Effect(sA, sC', b, ok');
    EffectTrans(s1, sA, sC', a, b, ok, ok');
    EffectView(sA, sC', b, ok');
  }

  /** The dependency loop has run and the body is about to be analysed. */
  ghost predicate SettledFrom(s: Snap, s': Snap) {
    SameDefs(s.defs, s'.defs) && KeepsOuter(s.defs, s'.defs, s.depth) && s' == s.(defs := s'.defs, depth := s.depth + 1)
  }

  lemma SettledScope(s: Snap, s': Snap)
    requires Good(s) && SettledFrom(s, s')
    ensures Good(s') && Sc(s') == Sc(s) && Dom(s') == Dom(s) && Top(s') == Top(s) && NameMap(s'.defs) == NameMap(s.defs)
    ensures forall ids :: Resolvable(s, ids) ==> Resolvable(s', ids)
  {
    SameNames(s.defs, s'.defs);
  }

  /** What opening a frame for the names `ns` leaves: `s1` is inside it. */
  ghost predicate Opened(s0: Snap, s1: Snap, ns: seq<Name>) {
    && Inside(s0, s1, NameSet(ns)) && SameAround(s0, s1, Distinct(ns)) && Dom(s1) == Dom(s0) + NameSet(ns)
    && (Distinct(ns) ==> Sc(s1) == BindAll(Sc(s0), ns) && |s1.defs| == |s0.defs| + |ns|)
    && (forall i :: |s0.defs| <= i < |s1.defs| ==> s1.defs[i].name.Some? && s1.defs[i].depth == s0.depth)
  }

  lemma OpenedFrame(s0: Snap, s1: Snap, ns: seq<Name>)
    requires Good(s0) && Allocated(PushedFrame(s0), s1, ns) && FrameOpen(s1, |s0.defs|)
    ensures Opened(s0, s1, ns)
  {
    EnterFrame(s0, s1, ns);
    hide StackOk, ScopeOf, Inside, NameSet;
    assert SameAround(s0, s1, Distinct(ns));
  }

  lemma InsideResolvable(s0: Snap, s1: Snap, ns: seq<Name>, free: set<Name>, part: set<Name>)
    requires Opened(s0, s1, ns) && Resolvable(s0, IdsOf(free - NameSet(ns), Sc(s0))) && part <= free
    ensures Good(s1) && Resolvable(s1, IdsOf(part, Sc(s1)))
  {
    hide StackOk, ScopeOf;
    InnerResolvable(s0, s1, NameSet(ns), free);
    IdsOfSubset(part, free, Sc(s1));
  }

  lemma NamesAreIds(bs: seq<Bind>)
    ensures NameSet(Names(bs)) !! SelfNames
  {}

  lemma LocalRes(e: Expr, le: LExpr, sc: Scope, v: View, sc': Scope, v': View)
    requires e.Local? && e.binds != [] && le.LLocal? && Distinct(Names(e.binds)) && le.shape.n == |e.binds|
    requires FrameOk(le.shape, v, FreeIds(e, sc)) && sc' == BindAll(sc, Names(e.binds))
    requires v' == EnterView(v, le.shape, sc.next)
    requires ResBinds(e.binds, le.binds, sc', v', 0) && Res(e.body, le.body, sc', v')
    ensures Res(e, le, sc, v)
  {}

  ghost predicate WFParams(ps: seq<Param>, dom: set<Name>) {
    forall i :: 0 <= i < |ps| ==> WFParam(ps[i], dom)
  }

  ghost predicate ResParams(ps: seq<Param>, lps: seq<LParam>, sc: Scope, v: View) {
    |lps| == |ps| && forall i :: 0 <= i < |ps| ==> ResParam(ps[i], lps[i], sc, v, i)
  }

  /** A lone parameter returned as it is. */
  predicate IsIdentity(lps: seq<LParam>, lb: LExpr) {
    |lps| == 1 && lps[0].default.None? && lb == LSlot(SLocal(lps[0].slot))
  }

  lemma WFFn(e: Expr, dom: set<Name>, dom': set<Name>)
    requires e.Fn? && dom' == dom + NameSet(ParamNames(e.params))
    ensures WF(e, dom) <==> Distinct(ParamNames(e.params)) && WFParams(e.params, dom') && WF(e.body, dom')
  {}

  lemma FnRes(e: Expr, le: LExpr, sc: Scope, v: View, sc': Scope, v': View, sh: Shape, lps: seq<LParam>, lb: LExpr)
    requires e.Fn? && Distinct(ParamNames(e.params)) && sh.n == |e.params|
    requires le == if IsIdentity(lps, lb) then LIdentity else LFn(lps, sh, lb)
    requires FrameOk(sh, v, FreeIds(e, sc)) && sc' == BindAll(sc, ParamNames(e.params)) && v' == EnterView(v, sh, sc.next)
    requires ResParams(e.params, lps, sc', v') && Res(e.body, lb, sc', v')
    ensures Res(e, le, sc, v)
  {
    if IsIdentity(lps, lb) {
      assert ResParam(e.params[0], lps[0], sc', v', 0);
      ResSlot(e.body, SLocal(0), sc', v', View([], sc.next, 1, false, false));
    }
  }

  lemma {:induction false} ResSlot(e: Expr, s: Slot, sc: Scope, v: View, v': View)
    requires Res(e, LSlot(s), sc, v) && IdOf(v', s) == IdOf(v, s)
    ensures Res(e, LSlot(s), sc, v')
    decreases e
  {
    if e.Local? { ResSlot(e.body, s, sc, v, v'); }
  }

  // ---------------------------------------------------------------- the values of a frame

  function Values(bs: seq<Bind>): (r: seq<Expr>)
    ensures |r| == |bs| && forall i :: 0 <= i < |bs| ==> r[i] == bs[i].value
  {
    seq(|bs|, i requires 0 <= i < |bs| => bs[i].value)
  }

  const NoDefault := Lit(Null)

  function Defaults(ps: seq<Param>): (r: seq<Expr>)
    ensures |r| == |ps| && forall i :: 0 <= i < |ps| ==> r[i] == ps[i].default.GetOr(NoDefault)
  {
    seq(|ps|, i requires 0 <= i < |ps| => ps[i].default.GetOr(NoDefault))
  }

  lemma {:induction false} FreeValues(bs: seq<Bind>)
    ensures FVBinds(bs) == FVs(Values(bs))
    decreases |bs|
  {
    if bs != [] {
      FreeValues(bs[..|bs| - 1]);
      assert Values(bs)[..|bs| - 1] == Values(bs[..|bs| - 1]);
    }
  }

  lemma {:induction false} FreeDefaults(ps: seq<Param>)
    ensures FVParams(ps) == FVs(Defaults(ps))
    decreases |ps|
  {
    if ps != [] {
      FreeDefaults(ps[..|ps| - 1]);
      assert Defaults(ps)[..|ps| - 1] == Defaults(ps[..|ps| - 1]);
    }
  }

  /** A taint found separately is merged into another one. */
  lemma MergedTaint(vt: S.Analysis, t: S.Analysis, ids: set<nat>, own: bool, s: Snap, s': Snap)
    requires Tainted(S.Nothing, vt, ids, own, s) && s'.depth == s.depth
    requires SameDefs(s.defs, s'.defs) && KeepsOuter(s.defs, s'.defs, s.depth)
    ensures Tainted(t, S.TaintBy(t, vt), ids, own, s')
  {
    SameTaint(S.Nothing, vt, ids, own, s, s');
    hide AllOuter, KeepsOuter, SameDefs;
    S.LevelOfBoth(t, vt);
    assert forall d :: 0 <= d ==> Within(S.Nothing, d) && (Within(S.TaintBy(t, vt), d) <==> Within(t, d) && Within(vt, d));
  }

  lemma ArrRes(e: Expr, le: LExpr, sc: Scope, v: View)
    requires e.Arr? && !AllTrivial(e.items) && le.LArr? && |le.items| == |e.items|
    requires CapsOnly(le.shape) && ShapeOk(le.shape, v)
    requires forall i :: 0 <= i < |e.items| ==> Res(e.items[i], le.items[i], sc, UseView(v, le.shape))
    ensures Res(e, le, sc, v)
  {}

  function LoweredParam(p: Param, slot: nat, l: Lowered): LParam {
    LParam(slot, if p.default.Some? then Some(LBind(slot, l.shape, l.value)) else None)
  }

  lemma NextResolvable(s0: Snap, s1: Snap, es: seq<Expr>, k: nat, ok: bool)
    requires Good(s0) && Good(s1) && k < |es| && Effect(s0, s1, FVs(es[..k]), ok)
    requires Resolvable(s0, IdsOf(FVs(es), Sc(s0)))
    ensures Resolvable(s1, FreeIds(es[k], Sc(s1)))
  {
    hide StackOk, ScopeOf, CanResolve, Effect, FV, FVs;
    InFVs(es, k);
    EffectScope(s0, s1, FVs(es[..k]), ok);
    IdsOfSubset(FV(es[k]), FVs(es), Sc(s0));
    EffectResolvable(s0, s1, FVs(es[..k]), ok, FreeIds(es[k], Sc(s0)));
  }

  /** The record after the first `i` binders of a frame: one group per binder, and the ids the
      groups bind are exactly the frame's locals in order. */
  ghost predicate Recorded(c: S.Closures, slots: seq<Option<nat>>, base: nat, first: nat, i: nat, n: nat) {
    && S.WellShaped(c) && S.InBounds(S.Specs(c), n) && c.first == first && i <= |slots|
    && S.Sum(c.shapes).1 == CountSome(slots[..i]) && base <= first && n == first + CountSome(slots)
    && Numbered(slots, first - base)
  }

  lemma RecordedNone(slots: seq<Option<nat>>, ns: seq<Name>, base: nat, first: nat, n: nat)
    requires base <= first <= n && Slots(slots, ns, first - base, n - first)
    ensures Recorded(S.Closures(first, [], []), slots, base, first, 0, n)
  {
    assert slots[..0] == [];
  }

  lemma ReadyToRecord(c: S.Closures, slots: seq<Option<nat>>, base: nat, first: nat, i: nat, n: nat)
    requires i < |slots| && Recorded(c, slots, base, first, i, n)
    ensures c.first == first && S.WellShaped(c) && S.InBounds(S.Specs(c), n) && c.first + S.Sum(c.shapes).1 <= n
    ensures slots[i].Some? ==> base + slots[i].value == c.first + S.Sum(c.shapes).1 < n
  {
    CountPrefix(slots, i);
  }

  lemma RecordedNext(c: S.Closures, c': S.Closures, slots: seq<Option<nat>>, base: nat, first: nat, i: nat, n: nat)
    requires i < |slots| && Recorded(c, slots, base, first, i, n)
    requires S.WellShaped(c') && S.InBounds(S.Specs(c'), n) && c'.first == c.first
    requires S.Sum(c'.shapes).1 == S.Sum(c.shapes).1 + if slots[i].Some? then 1 else 0
    ensures Recorded(c', slots, base, first, i + 1, n)
  {
    assert slots[..i + 1][..i] == slots[..i];
  }

  lemma RecordedSpecs(c: S.Closures, slots: seq<Option<nat>>, base: nat, first: nat, i: nat, n: nat)
    requires Recorded(c, slots, base, first, i, n)
    ensures S.WellShaped(c) && S.InBounds(S.Specs(c), n) && c.first == first
  {}

  lemma SlotsSize(slots: seq<Option<nat>>, ns: seq<Name>, off: nat, total: nat)
    requires Slots(slots, ns, off, total)
    ensures |slots| == |ns|
  {}

  // ---------------------------------------------------------------- from the values to the body

  lemma PartResolvable(s1: Snap, sA: Snap, sB: Snap, ns: set<Name>, ok: bool, part: set<Name>)
    requires Good(s1) && Good(sA) && Effect(s1, sA, ns, ok) && Resolvable(s1, IdsOf(part, Sc(s1))) && SettledFrom(sA, sB)
    ensures Good(sB) && Resolvable(sB, IdsOf(part, Sc(sB)))
  {
    hide StackOk, ScopeOf, CanResolve, Effect, IdsOf, Near, NameMap, Resolvable;
    SettledScope(sA, sB);
    EffectScope(s1, sA, ns, ok);
    EffectResolvable(s1, sA, ns, ok, IdsOf(part, Sc(s1)));
  }

  lemma ResBindsGrows(bs: seq<Bind>, lbs: seq<LBind>, sc: Scope, v0: View, v1: View, off: nat)
    requires Grows(v0, v1) && ResBinds(bs, lbs, sc, v0, off)
    ensures ResBinds(bs, lbs, sc, v1, off)
  {
    forall i | 0 <= i < |bs| ensures ResUse(bs[i].value, lbs[i].value, lbs[i].shape, sc, v1) {
      ResUseGrows(bs[i].value, lbs[i].value, lbs[i].shape, sc, v0, v1);
    }
  }

  lemma ResParamsGrows(ps: seq<Param>, lps: seq<LParam>, sc: Scope, v0: View, v1: View)
    requires Grows(v0, v1) && ResParams(ps, lps, sc, v0)
    ensures ResParams(ps, lps, sc, v1)
  {
    hide ResUse;
    forall i | 0 <= i < |ps| ensures ResParam(ps[i], lps[i], sc, v1, i) {
      assert ResParam(ps[i], lps[i], sc, v0, i);
      if ps[i].default.Some? {
        var b := lps[i].default.value;
        ResUseGrows(ps[i].default.value, b.value, b.shape, sc, v0, v1);
      }
    }
  }

  lemma TwoTaints(t0: S.Analysis, t1: S.Analysis, t2: S.Analysis, a: set<Name>, b: set<Name>, own: bool, own': bool, sc: Scope,
                  sA: Snap, sB: Snap, sC: Snap, ns: set<Name>, ok: bool)
    requires Tainted(t0, t1, IdsOf(a, sc), own, sA) && SettledFrom(sA, sB)
    requires Effect(sB, sC, ns, ok) && Tainted(t1, t2, IdsOf(b, sc), own', sC)
    ensures Tainted(t0, t2, IdsOf(a + b, sc), own || own', sC.(depth := sA.depth))
  {
    hide Covered, Weighed, KeepsOuter, Grown, IdsOf;
    IdsOfUnion(a, b, sc);
    CoveredStep(t0, t1, t2, IdsOf(a, sc), IdsOf(b, sc), sA.defs, sC.defs);
    KeepsOuterOn(sA.defs, sB.defs, sC.defs, sA.depth, sB.depth);
    WeighedStep(t0, t1, t2, IdsOf(a, sc), IdsOf(b, sc), own, own', sA, sC);
  }

  lemma LocalResolvable(s0: Snap, s1: Snap, e: Expr)
    requires e.Local? && Good(s0) && Opened(s0, s1, Names(e.binds)) && Resolvable(s0, FreeIds(e, Sc(s0)))
    ensures Good(s1) && Resolvable(s1, IdsOf(FVBinds(e.binds), Sc(s1))) && Resolvable(s1, FreeIds(e.body, Sc(s1)))
  {
    hide StackOk, ScopeOf, CanResolve, IdsOf, Near, Resolvable, Opened;
    var free := FVBinds(e.binds) + FV(e.body);
    InsideResolvable(s0, s1, Names(e.binds), free, FVBinds(e.binds));
    InsideResolvable(s0, s1, Names(e.binds), free, FV(e.body));
  }

  lemma FnResolvable(s0: Snap, s1: Snap, e: Expr)
    requires e.Fn? && Good(s0) && Opened(s0, s1, ParamNames(e.params)) && Resolvable(s0, FreeIds(e, Sc(s0)))
    ensures Good(s1) && Resolvable(s1, IdsOf(FVParams(e.params), Sc(s1))) && Resolvable(s1, FreeIds(e.body, Sc(s1)))
  {
    hide StackOk, ScopeOf, CanResolve, IdsOf, Near, Resolvable, Opened;
    var free := FVParams(e.params) + FV(e.body);
    InsideResolvable(s0, s1, ParamNames(e.params), free, FVParams(e.params));
    InsideResolvable(s0, s1, ParamNames(e.params), free, FV(e.body));
  }

  lemma NoBinds(e: Expr, sc: Scope)
    requires e.Local? && e.binds == []
    ensures FV(e) == FV(e.body) && FreeIds(e, sc) == FreeIds(e.body, sc)
    ensures forall dom :: WF(e, dom) <==> WF(e.body, dom)
  {
    assert NameSet(Names(e.binds)) == {};
    forall dom ensures WF(e, dom) <==> WF(e.body, dom) {
      assert dom + NameSet(Names(e.binds)) == dom;
    }
  }

  /** Where an expression's free names come from, one level down. */
  lemma FreeParts(e: Expr, sc: Scope)
    ensures e.Ref? ==> FreeIds(e, sc) == IdsOf({e.n}, sc)
    ensures e.Node? ==> FreeIds(e, sc) == IdsOf(FVs(e.kids), sc)
    ensures e.Arr? ==> FreeIds(e, sc) == IdsOf(FVs(e.items), sc)
    ensures e.Obj? ==> FreeIds(e, sc) == IdsOf(FVObj(e.def), sc)
  {}
}
