/** The analyzer: one pass over an expression that replaces names by slots while it extends the
    capture lists of the closure frames around the point it has reached. */
module Analyzer {
  import opened Options
  import opened Syntax
  import opened Resolution
  import opened ResolutionLaws
  import opened CaptureStack
  import opened NameStacks
  import opened CaptureOrder
  import opened FirstUse
  import opened AnalyzerState
  import opened CaptureWalks
  import opened AnalyzerContracts
  import opened ObjectFrames
  import opened CompFrames
  import S = Siblings

  class AnalysisStack {
    var localDefs: seq<LocalDef>
    var localByName: map<string, seq<nat>>
    var depth: nat
    /** Pseudo-local of the innermost object, and of the outermost one. */
    var thisLocal: Option<nat>
    var dollarAlias: Option<nat>
    var curSelfUsed: bool
    var curSuperUsed: bool
    var dollarUsed: bool
    var closureStack: seq<Frame>
    var errored: bool
    /** Which id each capture of each frame stands for. */
    ghost var caps: seq<seq<nat>>

    /** Externals are locals of the root closure, which is not a closure inside any other. */
    constructor (externals: seq<string>)
      ensures Valid() && fresh(this)
      ensures localDefs == ExternalDefs(externals) && depth == 0 && thisLocal == dollarAlias == None
      ensures !curSelfUsed && !curSuperUsed && !dollarUsed && !errored
      ensures closureStack == [Frame(Some(Defining(0, |externals|)), NoCaptures, [])] && caps == [[]]
    {
      localDefs, localByName := [], map[];
      depth, thisLocal, dollarAlias := 0, None, None;
      curSelfUsed, curSuperUsed, dollarUsed, errored := false, false, false, false;
      closureStack := [Frame(Some(Defining(0, |externals|)), NoCaptures, [])];
      caps := [[]];
      new;
      DefineExternals(externals);
    }

    method DefineExternals(externals: seq<string>)
      requires localDefs == [] && localByName == map[]
      modifies this`localDefs, this`localByName
      ensures localDefs == ExternalDefs(externals) && localByName == NameMap(localDefs)
    {
      for i := 0 to |externals|
        invariant localDefs == ExternalDefs(externals[..i]) && localByName == NameMap(localDefs)
      {
        DefineExternal(externals[i]);
        assert ExternalDefs(externals[..i + 1]) == ExternalDefs(externals[..i]) + [ExternalDef(externals[i])];
      }
      assert externals[..|externals|] == externals;
    }

    method DefineExternal(x: string)
      requires localByName == NameMap(localDefs)
      modifies this`localDefs, this`localByName
      ensures localDefs == old(localDefs) + [ExternalDef(x)] && localByName == NameMap(localDefs)
    {
      NewName(localDefs, ExternalDef(x));
      localByName := Push(localByName, x, |localDefs|);
      localDefs := localDefs + [ExternalDef(x)];
    }

    ghost function State(): (s: Snap)
      reads this
      ensures s == Snap(localDefs, depth, thisLocal, dollarAlias, curSelfUsed, curSuperUsed, dollarUsed, closureStack,
                        caps, errored)
    {
      Snap(localDefs, depth, thisLocal, dollarAlias, curSelfUsed, curSuperUsed, dollarUsed, closureStack, caps, errored)
    }

    ghost predicate Valid()
      reads this
      ensures Valid() ==> Good(State()) && localByName == NameMap(localDefs)
    {
      localByName == NameMap(localDefs) && Good(State())
    }

    lemma BeValid()
      requires localByName == NameMap(localDefs) && Good(State())
      ensures Valid()
    {}

    // -------------------------------------------------------------- slots

    /** The innermost frame with locals at or below level `idx`. */
    method NearestDefining(idx: nat) returns (d: Defining)
      requires idx < |closureStack| && closureStack[0].defining.Some?
      ensures d == Near(closureStack, idx)
    {
      var j: nat := idx;
      while closureStack[j].defining.None?
        invariant j <= idx && Near(closureStack, j) == Near(closureStack, idx)
        decreases j
      {
        j := j - 1;
      }
      d := closureStack[j].defining.value;
    }

    /** A slot for `target` at level `idx`, adding captures from there outwards where they are
        missing. A local of the frame the code runs in is never captured. */
    method ResolveAt(idx: nat, target: nat, ghost next: nat) returns (s: Slot)
      requires StackOk(closureStack, caps, next) && idx < |closureStack| && CanResolve(closureStack, idx, target)
      modifies this`closureStack, this`caps
      ensures StackOk(closureStack, caps, next) && Grown(old(closureStack), old(caps), closureStack, caps, {target})
      ensures forall i :: idx < i < |closureStack| ==> closureStack[i] == old(closureStack[i]) && caps[i] == old(caps[i])
      ensures Resolved(old(closureStack), old(caps), caps, target, idx)
      ensures IdOf(ViewAt(closureStack, caps, idx, false), s) == Some(target)
      ensures var d := Near(old(closureStack), idx); s.SLocal? <==> d.first <= target < d.first + d.n
      decreases idx
    {
      hide CanResolve;
      GrownRefl(closureStack, caps);
      var d := NearestDefining(idx);
      if d.first <= target < d.first + d.n {
        ResolvedLocal(closureStack, caps, next, target, idx);
        return SLocal(target - d.first);
      }
      assert FrameAt(closureStack, caps, idx);
      if target in closureStack[idx].captures {
        ResolvedCaptured(closureStack, caps, next, target, idx);
        return SCapture(closureStack[idx].captures[target]);
      }
      ResolveBelow(closureStack, caps, next, idx, target);
      ghost var fs0, cs0 := closureStack, caps;
      var parent := ResolveAt(idx - 1, target, next);
      ghost var fs1, cs1 := closureStack, caps;
      GrownNear(fs0, cs0, fs1, cs1, {target}, idx);
      AddCaptureOk(fs1, cs1, next, idx, target, parent);
      assert FrameAt(closureStack, caps, idx);
      s := SCapture(|closureStack[idx].sources|);
      closureStack := closureStack[idx := AddCapture(closureStack[idx], target, parent)];
      caps := caps[idx := caps[idx] + [target]];
      GrownTrans(fs0, cs0, fs1, cs1, closureStack, caps, {target}, {target}, {target});
      ResolvedAdded(fs0, cs0, cs1, caps, target, idx);
    }

    method ResolveToSlot(target: nat) returns (s: Slot)
      requires Good(State()) && CanResolve(closureStack, |closureStack| - 1, target)
      modifies this`closureStack, this`caps
      ensures Good(State()) && Grown(old(closureStack), old(caps), closureStack, caps, {target})
      ensures Resolved(old(closureStack), old(caps), caps, target, |old(closureStack)| - 1)
      ensures IdOf(Top(State()), s) == Some(target)
    {
      s := ResolveAt(|closureStack| - 1, target, |localDefs|);
    }

    method UseLocal(x: string, taint: S.Analysis) returns (s: Option<Slot>, t: S.Analysis)
      requires Valid() && Resolvable(State(), IdsOf({Id(x)}, Sc(State())))
      modifies this
      ensures Valid() && Used(old(State()), State(), Id(x), s, taint, t)
    {
      hide *;
      ghost var s0 := State();
      InnermostId(s0, x);
      if x !in localByName {
        errored := true;
        UnboundUse(s0, State(), Id(x), taint);
        BeValid();
        return None, taint;
      }
      var ids := localByName[x];
      var id := ids[|ids| - 1];
      MayResolve(s0, Id(x));
      var def := localDefs[id];
      t := S.DependOnLocal(taint, Clamp(def.depth));
      MentionLocal(taint, def);
      if def.analyzed { t := S.TaintBy(t, def.analysis); } else { def := def.(scratch := true); }
      Marked(s0, id, def);
      localDefs := localDefs[id := def];
      var slot := ResolveToSlot(id);
      s := Some(slot);
      BoundUse(s0, State(), Id(x), s, taint, t);
      BeValid();
    }

    method UsePseudoLocal(id: nat, taint: S.Analysis) returns (t: S.Analysis)
      requires id < |localDefs|
      ensures t == S.DependOnObject(S.DependOnLocal(taint, Clamp(localDefs[id].depth)), Clamp(localDefs[id].depth))
    {
      var d := Clamp(localDefs[id].depth);
      t := S.DependOnObject(S.DependOnLocal(taint, d), d);
    }

    method UseThis(taint: S.Analysis) returns (s: Option<Slot>, t: S.Analysis)
      requires Valid() && Resolvable(State(), IdsOf({Self}, Sc(State())))
      modifies this
      ensures Valid() && s.Some? == old(thisLocal.Some?)
      ensures s.Some? ==> Used(old(State()), State(), Self, s, taint, t)
      ensures s.None? ==> t == taint && State() == old(State()) && Self !in Dom(State())
    {
      hide StackOk, CanResolve, Used, Near, Mentioned;
      if thisLocal.None? { OnlyObjectNames(State()); return None, taint; }
      ghost var s0 := State();
      LiveId(s0, Self);
      curSelfUsed := true;
      t := UsePseudoLocal(thisLocal.value, taint);
      MentionLocal(taint, localDefs[thisLocal.value]);
      var slot := ResolveToSlot(thisLocal.value);
      s := Some(slot);
      BoundUse(s0, State(), Self, s, taint, t);
    }

    method UseDollar(taint: S.Analysis) returns (s: Option<Slot>, t: S.Analysis)
      requires Valid() && Resolvable(State(), IdsOf({Dollar}, Sc(State())))
      modifies this
      ensures Valid() && s.Some? == old(dollarAlias.Some?)
      ensures s.Some? ==> Used(old(State()), State(), Dollar, s, taint, t)
      ensures s.None? ==> t == taint && State() == old(State()) && Dollar !in Dom(State())
    {
      hide StackOk, CanResolve, Used, Near, Mentioned;
      OnlyObjectNames(State());
      if dollarAlias.None? { return None, taint; }
      ghost var s0 := State();
      LiveId(s0, Dollar);
      dollarUsed := true;
      t := UsePseudoLocal(dollarAlias.value, taint);
      MentionLocal(taint, localDefs[dollarAlias.value]);
      var slot := ResolveToSlot(dollarAlias.value);
      s := Some(slot);
      BoundUse(s0, State(), Dollar, s, taint, t);
    }

    method UseSuper(taint: S.Analysis) returns (ok: bool, t: S.Analysis)
      requires Valid()
      modifies this`curSuperUsed
      ensures Valid() && ok == thisLocal.Some?
      ensures if ok then
                && Effect(old(State()), State(), {Super}, true)
                && Tainted(taint, t, IdsOf({Super}, Sc(old(State()))), false, State())
              else t == taint && State() == old(State())
    {
      hide StackOk, Near, Effect, Tainted, Mentioned;
      if thisLocal.None? { return false, taint; }
      ghost var s0 := State();
      curSuperUsed := true;
      t := UsePseudoLocal(thisLocal.value, taint);
      MentionLocal(taint, localDefs[thisLocal.value]);
      ok := true;
      SuperUse(s0, State(), taint, t);
    }

    method AnalyzeName(n: Name, taint: S.Analysis) returns (le: LExpr, t: S.Analysis)
      requires Valid() && Resolvable(State(), IdsOf({n}, Sc(State()))) && n != Super
      modifies this
      ensures Valid() && Analyzed(old(State()), State(), Ref(n), le, taint, t)
    {
      hide *;
      ghost var s0 := State();
      var s: Option<Slot>;
      match n {
        case Id(x) => s, t := UseLocal(x, taint);
        case Self =>
          s, t := UseThis(taint);
          if s.None? { errored := true; UnboundUse(s0, State(), n, taint); }
        case Dollar =>
          s, t := UseDollar(taint);
          if s.None? { errored := true; UnboundUse(s0, State(), n, taint); }
      }
      BeValid();
      le := if s.Some? then LSlot(s.value) else LBad;
      RefAnalyzed(s0, State(), n, s, taint, t);
    }

    // -------------------------------------------------------------- frames

    /** Slot of a new local, or an error when the frame that starts at id `first` already has one of
        that name. `base` is the first id of the closure the frame belongs to. */
    method DefineLocal(x: string, first: nat, base: nat, ghost s0: Snap, ghost ns: seq<Name>) returns (slot: Option<nat>)
      requires Valid() && Good(s0) && Allocated(s0, State(), ns) && FrameOpen(State(), base) && first == |s0.defs|
      modifies this
      ensures Valid() && Allocated(s0, State(), ns + [Id(x)]) && FrameOpen(State(), base)
      ensures slot.Some? <==> Id(x) !in ns
      ensures if slot.Some? then slot.value == old(|localDefs|) - base && |localDefs| == old(|localDefs|) + 1
              else |localDefs| == old(|localDefs|)
    {
      hide Good, Near, Allocated, Sc, NameMap;
      ghost var s1 := State();
      TakenIff(s0, s1, ns, x);
      InnermostId(s1, x);
      if x in localByName && localByName[x][|localByName[x]| - 1] >= first {
        AllocatedTwice(s0, s1, ns, x);
        errored := true;
        return None;
      }
      var id, t := |localDefs|, |closureStack| - 1;
      var def := LocalDef(Some(x), depth, S.Nothing, false, false);
      AllocatedNew(s0, s1, ns, x, def, base);
      NewName(localDefs, def);
      localByName := Push(localByName, x, id);
      localDefs := localDefs + [def];
      var d := closureStack[t].defining.value;
      closureStack := closureStack[t := closureStack[t].(defining := Some(d.(n := d.n + 1)))];
      slot := Some(d.n);
    }

    method AllocNames(ns: seq<Name>, base: nat) returns (slots: seq<Option<nat>>)
      requires Valid() && FrameOpen(State(), base) && forall i :: 0 <= i < |ns| ==> ns[i].Id?
      modifies this
      ensures Valid() && Allocated(old(State()), State(), ns) && FrameOpen(State(), base)
      ensures old(|localDefs|) <= |localDefs|
      ensures Slots(slots, ns, old(|localDefs|) - base, |localDefs| - old(|localDefs|))
    {
      hide StackOk, Near, Slots, Allocated, Distinct;
      ghost var s0 := State();
      var first := |localDefs|;
      AllocatedNone(s0, base);
      slots := [];
      SlotsStart(first - base);
      for i := 0 to |ns|
        invariant Valid() && Allocated(s0, State(), ns[..i]) && FrameOpen(State(), base)
        invariant first <= |localDefs| && Slots(slots, ns[..i], first - base, |localDefs| - first)
      {
        assert ns[..i + 1] == ns[..i] + [ns[i]];
        ghost var n := |localDefs|;
        AllocatedSize(s0, State(), ns[..i]);
        var slot := DefineLocal(ns[i].x, first, base, s0, ns[..i]);
        SlotsStep(slots, ns[..i], first - base, n - first, ns[i], slot);
        slots := slots + [slot];
      }
      assert ns[..|ns|] == ns;
    }

    /** The locals of the frame from `first` on that the value just analysed has referred to. */
    method CollectRefs(first: nat) returns (refs: seq<nat>)
      requires first <= |localDefs|
      modifies this`localDefs
      ensures SameDefs(old(localDefs), localDefs)
      ensures forall r :: r in refs <==> first <= r < |localDefs| && old(localDefs)[r].scratch
      ensures forall r :: first <= r < |localDefs| ==> !localDefs[r].scratch
      ensures forall r :: 0 <= r < |localDefs| ==> localDefs[r] == old(localDefs)[r].(scratch := localDefs[r].scratch)
    {
      refs := [];
      for i := first to |localDefs|
        invariant SameDefs(old(localDefs), localDefs)
        invariant forall r :: 0 <= r < |localDefs| ==> localDefs[r] == old(localDefs)[r].(scratch := localDefs[r].scratch)
        invariant forall r :: r in refs <==> first <= r < i && old(localDefs)[r].scratch
        invariant forall r :: first <= r < i ==> !localDefs[r].scratch
        invariant forall r :: i <= r < |localDefs| ==> localDefs[r] == old(localDefs)[r]
      {
        if localDefs[i].scratch {
          refs := refs + [i];
          localDefs := localDefs[i := localDefs[i].(scratch := false)];
        }
      }
    }

    /** The analysis of a value is stored with the local it initialises, and its references to the
        locals of the frame are appended to the record. */
    method RecordSpec(c: S.Closures, slot: Option<nat>, base: nat, analysis: S.Analysis) returns (c': S.Closures, ghost refs: seq<nat>)
      requires S.WellShaped(c) && S.InBounds(S.Specs(c), |localDefs|) && c.first + S.Sum(c.shapes).1 <= |localDefs|
      requires slot.Some? ==> base + slot.value == c.first + S.Sum(c.shapes).1 < |localDefs|
      requires FrameFrom(State(), c.first)
      modifies this`localDefs
      ensures Touched(old(State()), State())
      ensures S.WellShaped(c') && S.InBounds(S.Specs(c'), |localDefs|) && c'.first == c.first
      ensures S.Sum(c'.shapes).1 == S.Sum(c.shapes).1 + if slot.Some? then 1 else 0
      ensures slot.Some? ==>
                var id := base + slot.value;
                && localDefs[id].analysis == analysis && localDefs[id].analyzed
                && S.Specs(c') == S.Specs(c) + [S.Spec(refs, id, id + 1)]
                && forall r :: r in refs <==> c.first <= r < |localDefs| && old(localDefs)[r].scratch
    {
      if slot.None? {
        S.PushThenIter(c, 0, []);
        assert (c.shapes + [(0, 0)])[..|c.shapes|] == c.shapes;
        return S.PushSpec(c, 0, []), [];
      }
      var rs := CollectRefs(c.first);
      var id := base + slot.value;
      localDefs := localDefs[id := localDefs[id].(analysis := analysis, analyzed := true)];
      S.PushThenIter(c, 1, rs);
      assert (c.shapes + [(|rs|, 1)])[..|c.shapes|] == c.shapes;
      c', refs := S.PushSpec(c, 1, rs), rs;
      FrameNoted(old(State()), localDefs, c.first);
    }

    /** All values analysed: dependencies spread between the siblings, and the body begins. */
    method FinishInit(c: S.Closures)
      requires Valid() && S.WellShaped(c) && S.InBounds(S.Specs(c), |localDefs|) && FrameFrom(State(), c.first)
      modifies this`localDefs, this`depth
      ensures Valid() && SettledFrom(old(State()), State())
      ensures S.CoversAll(Analyses(localDefs), Analyses(old(localDefs))) && S.Closed(Analyses(localDefs), Depths(localDefs), S.Specs(c))
      ensures S.Attained(Analyses(localDefs), Analyses(old(localDefs)), Depths(localDefs), S.Specs(c))
    {
      hide S.Closed, S.Attained, S.CoversAll, StackOk, NameMap, ScopeOf;
      ghost var s0 := State();
      var defs := localDefs;
      var ys := S.PropagateAll(Analyses(defs), Depths(defs), c);
      SameSize(ys, Analyses(defs));
      localDefs := seq(|defs|, i requires 0 <= i < |defs| => defs[i].(analysis := ys[i]));
      assert Analyses(localDefs) == ys && Depths(localDefs) == Depths(defs);
      SettledInside(s0, localDefs, c, ys);
      depth := depth + 1;
      SettledScope(s0, State());
    }

    lemma SameSize(ys: seq<S.Analysis>, xs: seq<S.Analysis>)
      requires S.CoversAll(ys, xs)
      ensures |ys| == |xs|
    {}

    /** The locals from `first` on go out of scope, and each name gives up its innermost id. */
    method FinishBody(first: nat)
      requires first <= |localDefs| && depth > 0 && localByName == NameMap(localDefs)
      requires forall i :: first <= i < |localDefs| ==> localDefs[i].name.Some?
      modifies this`localDefs, this`localByName, this`depth
      ensures localDefs == old(localDefs)[..first] && localByName == NameMap(localDefs) && depth == old(depth) - 1
    {
      depth := depth - 1;
      var i, drained := |localDefs|, localDefs;
      assert drained[..i] == drained;
      while i > first
        invariant depth == old(depth) - 1 && first <= i <= |localDefs| && localDefs == drained == old(localDefs)
        invariant localByName == NameMap(drained[..i])
      {
        i := i - 1;
        var name := drained[i].name.value;
        assert drained[..i + 1] == drained[..i] + [drained[i]];
        NewName(drained[..i], drained[i]);
        StacksOf(drained[..i], name);
        PopPush(NameMap(drained[..i]), name, i);
        localByName := Pop(localByName, name);
      }
      localDefs := localDefs[..first];
    }

    /** A closure with room for locals, holding the names `ns`. */
    method OpenFrame(ns: seq<Name>) returns (slots: seq<Option<nat>>)
      requires Valid() && forall i :: 0 <= i < |ns| ==> ns[i].Id?
      modifies this
      ensures Valid() && Opened(old(State()), State(), ns)
      ensures old(|localDefs|) <= |localDefs| && Slots(slots, ns, 0, |localDefs| - old(|localDefs|))
    {
      hide StackOk, ScopeOf, Allocated, Opened, Slots;
      ghost var s0 := State();
      PushFrameGood(s0);
      closureStack := closureStack + [Frame(Some(Defining(|localDefs|, 0)), NoCaptures, [])];
      caps := caps + [[]];
      slots := AllocNames(ns, |localDefs|);
      OpenedFrame(s0, State(), ns);
    }

    /** A closure without locals of its own. */
    method PushUsing()
      requires Valid() && Good(PushedUse(State()))
      modifies this`closureStack, this`caps
      ensures Valid() && State() == PushedUse(old(State()))
    {
      hide Good, NameMap;
      closureStack := closureStack + [Frame(None, NoCaptures, [])];
      caps := caps + [[]];
    }

    method PopClosure() returns (shape: Shape)
      requires closureStack != [] && caps != []
      modifies this`closureStack, this`caps
      ensures shape == TopShape(old(State())) && State() == Popped(old(State()))
    {
      var f := closureStack[|closureStack| - 1];
      shape := Shape(f.sources, if f.defining.Some? then f.defining.value.n else 0);
      closureStack := closureStack[..|closureStack| - 1];
      caps := caps[..|caps| - 1];
    }

    /** Back to the state `s0` from before the frame was opened, but for what its contents did. */
    method CloseFrame(ghost s0: Snap, first: nat) returns (shape: Shape)
      requires Valid() && closureStack != [] && caps != [] && depth == s0.depth + 1
      requires first == |s0.defs| <= |localDefs| && Good(Left(s0, State().(depth := s0.depth)))
      requires forall i :: first <= i < |localDefs| ==> localDefs[i].name.Some?
      requires thisLocal == s0.self && dollarAlias == s0.dollar
      modifies this
      ensures Valid() && State() == Left(s0, old(State()).(depth := s0.depth))
      ensures shape == TopShape(old(State()).(depth := s0.depth))
    {
      hide StackOk, ScopeOf, NameMap;
      FinishBody(first);
      shape := PopClosure();
    }

    // -------------------------------------------------------------- expressions

    method AnalyzeUse(e: Expr, taint: S.Analysis) returns (l: Lowered, t: S.Analysis)
      requires Valid() && Resolvable(State(), FreeIds(e, Sc(State())))
      modifies this
      ensures Valid() && UseAnalyzed(old(State()), State(), e, l.value, l.shape, taint, t)
      decreases e, 2, 0
    {
      hide *;
      ghost var s0 := State();
      PushUseGood(s0, FreeIds(e, Sc(s0)));
      PushUsing();
      var le;
      le, t := Analyze(e, taint);
      UseDone(s0, State(), e, le, taint, t);
      var shape := PopClosure();
      BeValid();
      l := Lowered(shape, le);
    }

    method AnalyzeSeq(es: seq<Expr>, taint: S.Analysis) returns (les: seq<LExpr>, t: S.Analysis)
      requires Valid() && Resolvable(State(), IdsOf(FVs(es), Sc(State())))
      modifies this
      ensures Valid() && SeqDone(old(State()), State(), es, les, |es|, taint, t)
      decreases es, 0, 0
    {
      hide *;
      ghost var s0 := State();
      les, t := [], taint;
      SeqStart(s0, es, taint);
      for k := 0 to |es|
        invariant Valid() && SeqDone(s0, State(), es, les, k, taint, t)
      {
        ghost var s1, t1 := State(), t;
        SeqResolvable(s0, s1, es, les, k, taint, t);
        var le;
        le, t := Analyze(es[k], t);
        SeqStep(s0, s1, State(), es, les, k, le, taint, t1, t);
        les := les + [le];
      }
    }

    /** The value of the `i`-th binder of a frame, in a closure of its own. */
    method AnalyzeValue(e: Expr, c: S.Closures, slots: seq<Option<nat>>, i: nat, base: nat, first: nat, taint: S.Analysis)
      returns (l: Lowered, c': S.Closures, t: S.Analysis, ghost vt: S.Analysis)
      requires Valid() && Resolvable(State(), FreeIds(e, Sc(State()))) && FrameFrom(State(), first)
      requires i < |slots| && Recorded(c, slots, base, first, i, |localDefs|)
      modifies this
      ensures Valid() && UseAnalyzed(old(State()), State(), e, l.value, l.shape, taint, t)
      ensures Recorded(c', slots, base, first, i + 1, |localDefs|) && FrameFrom(State(), first)
      ensures UseAnalyzed(old(State()), State(), e, l.value, l.shape, S.Nothing, vt) && Noted(State(), slots[i], base, vt)
      decreases e, 3, 0
    {
      hide *;
      ghost var s0 := State();
      var own;
      l, own := AnalyzeUse(e, S.Nothing);
      UseFrameKept(s0, State(), e, l.value, l.shape, S.Nothing, own, first);
      c' := StoreValue(e, l.value, l.shape, s0, c, slots, i, base, first, taint, own);
      t, vt := S.TaintBy(taint, own), own;
    }

    /** Merging and recording what has been found out about a value. */
    method StoreValue(ghost e: Expr, ghost le: LExpr, ghost sh: Shape, ghost s0: Snap, c: S.Closures,
                      slots: seq<Option<nat>>, i: nat, base: nat, first: nat, ghost taint: S.Analysis, vt: S.Analysis)
      returns (c': S.Closures)
      requires Valid() && Good(s0) && UseAnalyzed(s0, State(), e, le, sh, S.Nothing, vt)
      requires i < |slots| && Recorded(c, slots, base, first, i, |s0.defs|) && FrameFrom(State(), first)
      modifies this`localDefs
      ensures Valid() && UseAnalyzed(s0, State(), e, le, sh, taint, S.TaintBy(taint, vt))
      ensures Recorded(c', slots, base, first, i + 1, |localDefs|) && FrameFrom(State(), first)
      ensures UseAnalyzed(s0, State(), e, le, sh, S.Nothing, vt) && Noted(State(), slots[i], base, vt)
    {
      hide UseAnalyzed, Recorded, Good, NameMap, S.Specs, S.WellShaped, S.InBounds, Touched, FrameFrom;
      ghost var s1 := State();
      UseKeeps(s0, s1, e, le, sh, S.Nothing, vt);
      ReadyToRecord(c, slots, base, first, i, |localDefs|);
      ghost var refs;
      c', refs := RecordSpec(c, slots[i], base, vt);
      TouchedSize(s1, State());
      FrameTouched(s1, State(), first);
      UseMerged(s0, s1, State(), e, le, sh, taint, vt);
      UseMerged(s0, s1, State(), e, le, sh, S.Nothing, vt);
      S.NothingNew(vt);
      RecordedNext(c, c', slots, base, first, i, |s0.defs|);
    }

    /** The values of a frame's binders. */
    method AnalyzeBinds(bs: seq<Bind>, slots: seq<Option<nat>>, base: nat, first: nat, taint: S.Analysis)
      returns (lbs: seq<LBind>, c: S.Closures, t: S.Analysis)
      requires Valid() && base <= first <= |localDefs| && Slots(slots, Names(bs), first - base, |localDefs| - first)
      requires Resolvable(State(), IdsOf(FVBinds(bs), Sc(State()))) && FrameFrom(State(), first)
      modifies this
      ensures Valid() && BindsDone(old(State()), State(), bs, lbs, first - base, taint, t)
      ensures Recorded(c, slots, base, first, |bs|, |localDefs|) && FrameFrom(State(), first)
      decreases bs, 0, 0
    {
      hide *;
      ghost var s0, total := State(), |localDefs| - first;
      ghost var ls: seq<Lowered> := [];
      lbs, c, t := [], S.Closures(first, [], []), taint;
      SlotsSize(slots, Names(bs), first - base, total);
      RecordedNone(slots, Names(bs), base, first, |localDefs|);
      NoBindsYet(s0, bs, slots, first - base, taint);
      for i := 0 to |bs|
        invariant Valid() && SomeBinds(s0, State(), bs, slots, first - base, ls, lbs, i, taint, t)
        invariant Recorded(c, slots, base, first, i, |localDefs|) && FrameFrom(State(), first)
      {
        ghost var s1, t1 := State(), t;
        NextBindResolvable(s0, s1, bs, slots, first - base, ls, lbs, i, taint, t);
        var l; ghost var vt;
        l, c, t, vt := AnalyzeValue(bs[i].value, c, slots, i, base, first, t);
        BindStep(s0, s1, State(), bs, slots, first - base, ls, lbs, i, l, taint, t1, t);
        ls := ls + [l];
        if slots[i].Some? { lbs := lbs + [LBind(slots[i].value, l.shape, l.value)]; }
      }
      BindsAre(s0, State(), bs, slots, first - base, total, ls, lbs, taint, t);
    }

    /** The defaults of a function's parameters. */
    method AnalyzeParams(ps: seq<Param>, slots: seq<Option<nat>>, first: nat, taint: S.Analysis)
      returns (lps: seq<LParam>, c: S.Closures, t: S.Analysis)
      requires Valid() && first <= |localDefs| && Slots(slots, ParamNames(ps), 0, |localDefs| - first)
      requires Resolvable(State(), IdsOf(FVParams(ps), Sc(State()))) && FrameFrom(State(), first)
      modifies this
      ensures Valid() && ParamsDone(old(State()), State(), ps, lps, taint, t)
      ensures Recorded(c, slots, first, first, |ps|, |localDefs|) && FrameFrom(State(), first)
      decreases ps, 0, 0
    {
      hide *;
      ghost var s0, total := State(), |localDefs| - first;
      ghost var ls: seq<Lowered> := [];
      lps, c, t := [], S.Closures(first, [], []), taint;
      SlotsSize(slots, ParamNames(ps), 0, total);
      RecordedNone(slots, ParamNames(ps), first, first, |localDefs|);
      NoParamsYet(s0, ps, slots, taint);
      for i := 0 to |ps|
        invariant Valid() && SomeParams(s0, State(), ps, slots, ls, lps, i, taint, t)
        invariant Recorded(c, slots, first, first, i, |localDefs|) && FrameFrom(State(), first)
      {
        ghost var s1, t1 := State(), t;
        NextParamResolvable(s0, s1, ps, slots, ls, lps, i, taint, t);
        GetOrIs(ps[i].default);
        var l; ghost var vt;
        match ps[i].default {
          case Some(e) => l, c, t, vt := AnalyzeValue(e, c, slots, i, first, first, t);
          case None => l, c, t := SkipValue(c, slots, i, first, t);
        }
        ParamStep(s0, s1, State(), ps, slots, ls, lps, i, l, taint, t1, t);
        ls := ls + [l];
        if slots[i].Some? { lps := lps + [LoweredParam(ps[i], slots[i].value, l)]; }
      }
      ParamsAre(s0, State(), ps, slots, total, ls, lps, taint, t);
    }

    lemma GetOrIs(o: Option<Expr>)
      ensures o.GetOr(NoDefault) == if o.Some? then o.value else NoDefault
    {}

    /** A parameter without a default still has its place in the record. */
    method SkipValue(c: S.Closures, slots: seq<Option<nat>>, i: nat, first: nat, taint: S.Analysis)
      returns (l: Lowered, c': S.Closures, t: S.Analysis)
      requires Valid() && i < |slots| && Recorded(c, slots, first, first, i, |localDefs|) && FrameFrom(State(), first)
      modifies this`localDefs
      ensures Valid() && UseAnalyzed(old(State()), State(), NoDefault, l.value, l.shape, taint, t)
      ensures Recorded(c', slots, first, first, i + 1, |localDefs|) && FrameFrom(State(), first)
    {
      l, t := Lowered(Shape([], 0), LLit(Null)), S.TaintBy(taint, S.Nothing);
      hide *;
      ghost var s0 := State();
      NoValue(s0, taint);
      c' := StoreValue(NoDefault, LLit(Null), Shape([], 0), s0, c, slots, i, first, first, taint, S.Nothing);
    }

    /** The fields of an object, each in a closure of its own. */
    method AnalyzeFields(fs: seq<Bind>, taint: S.Analysis) returns (lfs: seq<LField>, t: S.Analysis)
      requires Valid() && Resolvable(State(), IdsOf(FVBinds(fs), Sc(State())))
      modifies this
      ensures Valid() && FieldsDone(old(State()), State(), fs, lfs, taint, t)
      decreases fs, 0, 0
    {
      hide *;
      ghost var s0 := State();
      ghost var ls: seq<Lowered> := [];
      lfs, t := [], taint;
      NoFieldsYet(s0, fs, taint);
      for i := 0 to |fs|
        invariant Valid() && SomeFields(s0, State(), fs, ls, lfs, i, taint, t)
      {
        ghost var s1, t1 := State(), t;
        NextFieldResolvable(s0, s1, fs, ls, lfs, i, taint, t);
        var l;
        l, t := AnalyzeUse(fs[i].value, t);
        FieldStep(s0, s1, State(), fs, ls, lfs, i, l, taint, t1, t);
        ls := ls + [l];
        lfs := lfs + [LField(fs[i].name, l.shape, l.value)];
      }
      FieldsAre(s0, State(), fs, ls, lfs, taint, t);
    }

    method AnalyzeLocal(e: Expr, taint: S.Analysis) returns (le: LExpr, t: S.Analysis)
      requires Valid() && Resolvable(State(), FreeIds(e, Sc(State()))) && e.Local? && e.binds != []
      modifies this
      ensures Valid() && Analyzed(old(State()), State(), e, le, taint, t)
      decreases e, 0, 0
    {
      hide *;
      ghost var s0, free := State(), FVBinds(e.binds) + FV(e.body);
      var ns, first := Names(e.binds), |localDefs|;
      var slots := OpenFrame(ns);
      ghost var s1 := State();
      LocalResolvable(s0, s1, e);
      OpenedFrom(s0, s1, ns);
      var lbs, c, t1 := AnalyzeBinds(e.binds, slots, first, first, taint);
      ghost var sA := State();
      BindsEffect(s1, sA, e.binds, lbs, 0, taint, t1);
      RecordedSpecs(c, slots, first, first, |e.binds|, |localDefs|);
      FinishInit(c);
      ghost var sB := State();
      BodyResolvable(s1, sA, sB, FVBinds(e.binds), WFBinds(e.binds, Dom(s1)), e.body);
      var lb;
      lb, t := Analyze(e.body, t1);
      ghost var sC := State();
      LocalBody(s1, sA, sB, sC, e, lbs, lb, taint, t1, t);
      LocalDone(s0, s1, sC.(depth := s1.depth), e, lbs, lb, taint, t);
      ReadyToClose(s0, s1, sC, ns, free, WFBinds(e.binds, Dom(s1)) && WF(e.body, Dom(s1)));
      BodyDepth(s1, sA, sB, sC, e.body, lb, FVBinds(e.binds), WFBinds(e.binds, Dom(s1)), t1, t);
      var sh := CloseFrame(s0, first);
      le := LLocal(sh, lbs, lb);
    }

    method AnalyzeFn(e: Expr, taint: S.Analysis) returns (le: LExpr, t: S.Analysis)
      requires Valid() && Resolvable(State(), FreeIds(e, Sc(State()))) && e.Fn?
      modifies this
      ensures Valid() && Analyzed(old(State()), State(), e, le, taint, t)
      decreases e, 0, 0
    {
      hide *;
      ghost var s0, free := State(), FVParams(e.params) + FV(e.body);
      var ns, first := ParamNames(e.params), |localDefs|;
      var slots := OpenFrame(ns);
      ghost var s1 := State();
      FnResolvable(s0, s1, e);
      OpenedFrom(s0, s1, ns);
      var lps, c, t1 := AnalyzeParams(e.params, slots, first, taint);
      ghost var sA := State();
      ParamsEffect(s1, sA, e.params, lps, taint, t1);
      RecordedSpecs(c, slots, first, first, |e.params|, |localDefs|);
      FinishInit(c);
      ghost var sB := State();
      ghost var ok := WFParams(e.params, Dom(s1));
      BodyResolvable(s1, sA, sB, FVParams(e.params), ok, e.body);
      var lb;
      lb, t := Analyze(e.body, t1);
      ghost var sC := State();
      FnBody(s1, sA, sB, sC, e, lps, lb, taint, t1, t);
      FnDone(s0, s1, sC.(depth := s1.depth), e, lps, lb, taint, t);
      ReadyToClose(s0, s1, sC, ns, free, ok && WF(e.body, Dom(s1)));
      BodyDepth(s1, sA, sB, sC, e.body, lb, FVParams(e.params), ok, t1, t);
      var sh := CloseFrame(s0, first);
      le := if IsIdentity(lps, lb) then LIdentity else LFn(lps, sh, lb);
    }

    /** A closure for the object's frame with the object's pseudo-local in it, and fresh usage flags. */
    method EnterObjectScope()
      requires Valid()
      modifies this
      ensures Valid() && State() == Entered(old(State()))
    {
      hide Good, ScopeOf, NameMap, Near;
      ghost var s0 := State();
      EnteredGood(s0);
      var thisId := |localDefs|;
      closureStack := closureStack + [Frame(Some(Defining(thisId, 1)), NoCaptures, [])];
      caps := caps + [[]];
      localDefs := localDefs + [ThisLocal(depth)];
      if dollarAlias.None? {
        dollarAlias := Some(thisId);
        dollarUsed := false;
      }
      thisLocal := Some(thisId);
      curSelfUsed := false;
      curSuperUsed := false;
      assert closureStack == Entered(s0).frames;
    }

    method OpenObject(ns: seq<Name>) returns (slots: seq<Option<nat>>)
      requires Valid() && forall i :: 0 <= i < |ns| ==> ns[i].Id?
      modifies this
      ensures Valid() && OpenedObj(old(State()), State(), ns)
      ensures old(|localDefs|) + 1 <= |localDefs| && Slots(slots, ns, 1, |localDefs| - old(|localDefs|) - 1)
    {
      hide *;
      ghost var s0 := State();
      var thisId := |localDefs|;
      EnterObjectScope();
      EnteredGood(s0);
      EnteredSize(s0);
      slots := AllocNames(ns, thisId);
      OpenedObject(s0, State(), ns);
    }

    /** The enclosing object, if any, is the innermost one again; `late` says whether any member
        looked at the object being left. */
    method LeaveObjectScope(prevThis: Option<nat>, prevDollar: Option<nat>, prevSelfUsed: bool, prevSuperUsed: bool,
                            prevDollarUsed: bool)
      returns (late: bool)
      modifies this`thisLocal, this`dollarAlias, this`curSelfUsed, this`curSuperUsed, this`dollarUsed
      ensures State() == old(State()).(self := prevThis, dollar := prevDollar, selfUsed := prevSelfUsed,
                                       superUsed := prevSuperUsed,
                                       dollarUsed := if prevDollar.None? then prevDollarUsed else old(dollarUsed))
      ensures late == old(curSelfUsed || curSuperUsed || (prevDollar.None? && dollarUsed))
    {
      var setDollar := prevDollar.None? && dollarUsed;
      late := curSelfUsed || curSuperUsed || setDollar;
      thisLocal, dollarAlias := prevThis, prevDollar;
      curSelfUsed, curSuperUsed := prevSelfUsed, prevSuperUsed;
      if prevDollar.None? { dollarUsed := prevDollarUsed; }
    }

    method CloseObject(ghost s0: Snap, thisId: nat, prevThis: Option<nat>, prevDollar: Option<nat>, prevSelfUsed: bool,
                       prevSuperUsed: bool, prevDollarUsed: bool)
      returns (late: bool, shape: Shape)
      requires Valid() && closureStack != [] && caps != [] && depth == s0.depth + 1
      requires thisId == |s0.defs| < |localDefs| && NameMap(localDefs[..thisId + 1]) == NameMap(localDefs[..thisId])
      requires Good(LeftObj(s0, State().(depth := s0.depth)))
      requires forall i :: thisId < i < |localDefs| ==> localDefs[i].name.Some?
      requires prevThis == s0.self && prevDollar == s0.dollar && prevSelfUsed == s0.selfUsed
      requires prevSuperUsed == s0.superUsed && prevDollarUsed == s0.dollarUsed
      modifies this
      ensures Valid() && State() == LeftObj(s0, old(State()).(depth := s0.depth))
      ensures shape == TopShape(old(State()).(depth := s0.depth))
      ensures late == LateBound(s0, old(State()).(depth := s0.depth))
    {
      hide Good, NameMap;
      ghost var s2 := State().(depth := s0.depth);
      FinishBody(thisId + 1);
      assert localDefs[..thisId] == s2.defs[..thisId];
      localDefs := localDefs[..thisId];
      late := LeaveObjectScope(prevThis, prevDollar, prevSelfUsed, prevSuperUsed, prevDollarUsed);
      shape := PopClosure();
    }

    method AnalyzeObj(def: ObjBody, taint: S.Analysis) returns (ldef: LObjBody, t: S.Analysis)
      requires Valid() && Resolvable(State(), IdsOf(FVObj(def), Sc(State())))
      modifies this
      ensures Valid() && ObjAnalyzed(old(State()), State(), def, ldef, taint, t)
      decreases def, 1, 0
    {
      hide *;
      ghost var s0 := State();
      var thisId, prevThis, prevDollar := |localDefs|, thisLocal, dollarAlias;
      var prevSelfUsed, prevSuperUsed, prevDollarUsed := curSelfUsed, curSuperUsed, dollarUsed;
      var slots := OpenObject(Names(def.locals));
      ghost var s1 := State();
      ObjResolvable(s0, s1, def);
      ObjFrom(s0, s1, def);
      var lbs, c, t1 := AnalyzeBinds(def.locals, slots, thisId, thisId + 1, taint);
      ghost var sA := State();
      BindsEffect(s1, sA, def.locals, lbs, 1, taint, t1);
      RecordedSpecs(c, slots, thisId, thisId + 1, |def.locals|, |localDefs|);
      FinishInit(c);
      ghost var sB := State();
      PartResolvable(s1, sA, sB, FVBinds(def.locals), WFBinds(def.locals, Dom(s1)), FVBinds(def.fields));
      var lfs;
      lfs, t := AnalyzeFields(def.fields, t1);
      ghost var sC := State();
      MembersAnalyzed(s1, sA, sB, sC, def, lbs, lfs, taint, t1, t);
      ObjDone(s0, s1, sC.(depth := s1.depth), def, lbs, lfs, taint, t);
      ReadyToLeave(s0, s1, sC, def, lbs, lfs, taint, t);
      var late, sh := CloseObject(s0, thisId, prevThis, prevDollar, prevSelfUsed, prevSuperUsed, prevDollarUsed);
      ldef := LObjBody(sh, late, lbs, lfs);
    }

    /** Analyses an expression as if it stood outside all but the first `keep` closure frames. What
        this reports is dropped: the expression has been analysed in place before. */
    method ReanalyzeInOuterClosure(e: Expr, keep: nat) returns (le: LExpr, ghost s': Snap, ghost t: S.Analysis)
      requires Valid() && 0 < keep <= |closureStack| && |caps| == |closureStack|
      requires Good(Detached(State(), keep)) && Resolvable(Detached(State(), keep), FreeIds(e, Sc(Detached(State(), keep))))
      modifies this
      ensures Good(s') && Analyzed(Detached(old(State()), keep), s', e, le, S.Nothing, t)
      ensures State() == Attached(old(State()), s', keep) && localByName == NameMap(localDefs)
      decreases e, 2, 0
    {
      hide Good, NameMap, Resolvable, Analyzed, FreeIds, Sc;
      var saved, prevErrored := closureStack[keep..], errored;
      ghost var savedCaps := caps[keep..];
      closureStack, caps := closureStack[..keep], caps[..keep];
      le, t := Analyze(e, S.Nothing);
      s' := State();
      errored := prevErrored;
      closureStack, caps := closureStack + saved, caps + savedCaps;
    }

    /** The source of an iteration, hoisted out of the comprehension when it depends on none of the
        comprehension's own variables. */
    method AnalyzeOver(over: Expr, outerLen: nat, outerDepth: nat, ghost n0: nat, ghost bound: set<Name>, taint: S.Analysis)
      returns (le: LExpr, inv: bool, ot: S.Analysis, t: S.Analysis)
      requires Valid() && InComp(State(), outerLen, n0, outerDepth, bound) && Resolvable(State(), FreeIds(over, Sc(State())))
      modifies this
      ensures Valid() && InComp(State(), outerLen, n0, outerDepth, bound)
      ensures OverDone(old(State()), State(), over, le, inv, outerLen, outerDepth, bound, taint, t)
      decreases over, 3, 0
    {
      hide *;
      ghost var s0 := State();
      le, ot := Analyze(over, S.Nothing);
      t := S.TaintBy(taint, ot);
      inv := LoopInvariant(ot, outerDepth);
      ghost var s1 := State();
      OverMerged(s0, s1, over, le, outerLen, n0, outerDepth, bound, taint, ot);
      if inv && |closureStack| > outerLen {
        HoistResolvable(s1, outerLen, n0, outerDepth, bound, over, Own(over, NoObject(s0)), ot);
        InCompSizes(s1, outerLen, n0, outerDepth, bound);
        ghost var s', t';
        le, s', t' := ReanalyzeInOuterClosure(over, outerLen);
        OverHoisted(s0, s1, s', over, le, outerLen, n0, outerDepth, bound, taint, ot, t');
        BeValid();
      } else {
        InCompSizes(s1, outerLen, n0, outerDepth, bound);
      }
    }

    /** The specifications of a comprehension from the `k`-th on, and its value. */
    method AnalyzeSpecs(c: Expr, k: nat, outerLen: nat, outerDepth: nat, ghost n0: nat, ghost bound: set<Name>, taint: S.Analysis)
      returns (l: Lowered, specs: seq<LSpec>, t: S.Analysis)
      requires c.Comp? && k <= |c.specs| && Valid() && InComp(State(), outerLen, n0, outerDepth, bound)
      requires Resolvable(State(), IdsOf(FVSpecs(c, k), Sc(State())))
      modifies this
      ensures Valid() && 0 < outerLen <= |closureStack|
      ensures SpecsDone(old(State()), State(), c, k, l, specs, outerLen, bound, taint, t)
      decreases c, 0, |c.specs| - k
    {
      hide *;
      ghost var s0 := State();
      SpecParts(s0, c, k);
      InCompSizes(s0, outerLen, n0, outerDepth, bound);
      if k == |c.specs| {
        l, t := AnalyzeUse(c.value, taint);
        UseSize(s0, State(), c.value, l, taint, t);
        InnermostDone(s0, State(), c, k, l, outerLen, bound, taint, t);
        return l, [], t;
      }
      match c.specs[k]
      case Cond(cond) =>
        var lcond, ta := Analyze(cond, taint);
        ghost var sA := State();
        AnalyzedEffect(s0, sA, cond, lcond, taint, ta);
        InCompEffect(s0, sA, outerLen, n0, outerDepth, bound, FV(cond), WF(cond, Dom(s0)));
        StillResolvable(s0, sA, FV(cond), WF(cond, Dom(s0)), FVSpecs(c, k + 1));
        var rest;
        l, rest, t := AnalyzeSpecs(c, k + 1, outerLen, outerDepth, n0, bound, ta);
        CondDone(s0, sA, State(), c, k, lcond, l, rest, outerLen, bound, taint, ta, t);
        specs := [LCond(lcond)] + rest;
      case For(x, over) => l, specs, t := AnalyzeFor(c, k, outerLen, outerDepth, n0, bound, taint);
    }

    method AnalyzeFor(c: Expr, k: nat, outerLen: nat, outerDepth: nat, ghost n0: nat, ghost bound: set<Name>, taint: S.Analysis)
      returns (l: Lowered, specs: seq<LSpec>, t: S.Analysis)
      requires c.Comp? && k < |c.specs| && c.specs[k].For? && Valid() && InComp(State(), outerLen, n0, outerDepth, bound)
      requires Resolvable(State(), IdsOf(FVSpecs(c, k), Sc(State())))
      modifies this
      ensures Valid() && 0 < outerLen <= |closureStack|
      ensures SpecsDone(old(State()), State(), c, k, l, specs, outerLen, bound, taint, t)
      decreases c, 0, |c.specs| - k, 0
    {
      hide *;
      ghost var s0 := State();
      var x, over := c.specs[k].x, c.specs[k].over;
      SpecParts(s0, c, k);
      var lover, inv, ot, ta := AnalyzeOver(over, outerLen, outerDepth, n0, bound, taint);
      ghost var sB := State();
      OverSize(s0, sB, over, lover, inv, outerLen, n0, outerDepth, bound, taint, ta);
      StillResolvable(s0, sB, FV(over), WF(over, Dom(s0)), FVSpecs(c, k));
      var first := |localDefs|;
      ghost var s1;
      s1 := OpenIteration(x, ot);
      ghost var sE := State();
      IterReady(sB, s1, sE, c, k, x, outerLen, n0, outerDepth, bound);
      var rest;
      l, rest, t := AnalyzeSpecs(c, k + 1, outerLen, outerDepth, n0, bound + {Id(x)}, ta);
      ghost var sC := State();
      ForDone(s0, sB, s1, sE, sC, c, k, lover, inv, l, rest, outerLen, outerDepth, bound, taint, ta, t);
      IterDepth(sB, s1, sE, sC, c, k, l, rest, outerLen, bound, ta, t);
      var sh := CloseFrame(sB, first);
      specs := [LFor(sh, 0, lover, inv)] + rest;
    }

    /** The frame of an iteration variable, whose analysis is that of the source. */
    method OpenIteration(x: string, ot: S.Analysis) returns (ghost s1: Snap)
      requires Valid()
      modifies this
      ensures Valid() && Good(s1) && Opened(old(State()), s1, [Id(x)]) && SettledFrom(s1, State())
    {
      hide *;
      ghost var sB := State();
      var first := |localDefs|;
      var slots := OpenFrame([Id(x)]);
      s1 := State();
      OneSlot(slots, Id(x), |localDefs| - first);
      RecordedNone(slots, [Id(x)], first, first, |localDefs|);
      OpenedFrom(sB, s1, [Id(x)]);
      var c := RecordIteration(slots, first, S.DependOnLocal(ot, Clamp(depth)));
      ghost var sR := State();
      FinishInit(c);
      SettledTouched(s1, sR, State());
    }

    method RecordIteration(slots: seq<Option<nat>>, first: nat, analysis: S.Analysis) returns (c: S.Closures)
      requires Valid() && |slots| == 1 && Recorded(S.Closures(first, [], []), slots, first, first, 0, |localDefs|)
      requires FrameFrom(State(), first)
      modifies this`localDefs
      ensures Valid() && Touched(old(State()), State()) && FrameFrom(State(), first)
      ensures S.WellShaped(c) && S.InBounds(S.Specs(c), |localDefs|) && c.first == first
    {
      hide Good, NameMap, Touched, FrameFrom, S.Specs, S.InBounds, S.WellShaped, Recorded;
      ghost var s1 := State();
      ReadyToRecord(S.Closures(first, [], []), slots, first, first, 0, |localDefs|);
      ghost var refs;
      c, refs := RecordSpec(S.Closures(first, [], []), slots[0], first, analysis);
      TouchedGood(s1, State());
      FrameTouched(s1, State(), first);
    }

    method AnalyzeComp(e: Expr, taint: S.Analysis) returns (le: LExpr, t: S.Analysis)
      requires Valid() && Resolvable(State(), FreeIds(e, Sc(State()))) && e.Comp?
      modifies this
      ensures Valid() && Analyzed(old(State()), State(), e, le, taint, t)
      decreases e, 0, |e.specs| + 1
    {
      hide *;
      ghost var s0 := State();
      CompStart(s0);
      CompFree(e, Sc(s0));
      var l, specs;
      l, specs, t := AnalyzeSpecs(e, 0, |closureStack|, depth, |localDefs|, {}, taint);
      CompIsDone(s0, State(), e, l, specs, |s0.frames|, taint, t);
      le := LComp(l.shape, l.value, specs);
    }

    method AnalyzeRef(n: Name, taint: S.Analysis) returns (le: LExpr, t: S.Analysis)
      requires Valid() && Resolvable(State(), FreeIds(Ref(n), Sc(State())))
      modifies this
      ensures Valid() && Analyzed(old(State()), State(), Ref(n), le, taint, t)
    {
      hide *;
      FreeParts(Ref(n), Sc(State()));
      if n == Super { le, t := AnalyzeSuper(taint); } else { le, t := AnalyzeName(n, taint); }
    }

    method AnalyzeSuper(taint: S.Analysis) returns (le: LExpr, t: S.Analysis)
      requires Valid()
      modifies this
      ensures Valid() && Analyzed(old(State()), State(), Ref(Super), le, taint, t)
    {
      hide StackOk, ScopeOf, Near, Analyzed, Effect, Tainted;
      ghost var s0 := State();
      var ok;
      ok, t := UseSuper(taint);
      if !ok { errored := true; }
      SuperAlone(s0, State(), taint, t);
      le := if ok then LSuper else LBad;
    }

    method AnalyzeSuperField(f: string, taint: S.Analysis) returns (le: LExpr, t: S.Analysis)
      requires Valid()
      modifies this
      ensures Valid() && Analyzed(old(State()), State(), SuperField(f), le, taint, t)
    {
      hide StackOk, ScopeOf, Near, Analyzed, Effect, Tainted;
      ghost var s0 := State();
      var ok;
      ok, t := UseSuper(taint);
      if !ok { errored := true; }
      SuperDone(s0, State(), f, taint, t);
      le := if ok then LSuperField(f) else LBad;
    }

    method AnalyzeArr(e: Expr, taint: S.Analysis) returns (le: LExpr, t: S.Analysis)
      requires Valid() && Resolvable(State(), FreeIds(e, Sc(State()))) && e.Arr?
      modifies this
      ensures Valid() && Analyzed(old(State()), State(), e, le, taint, t)
      decreases e, 0, 0
    {
      hide *;
      ghost var s0 := State();
      if AllTrivial(e.items) {
        ConstDone(s0, e, taint);
        return LArrConst(Trivials(e.items)), taint;
      }
      FreeParts(e, Sc(s0));
      PushUseGood(s0, FreeIds(e, Sc(s0)));
      PushUsing();
      FreeParts(e, Sc(State()));
      var les;
      les, t := AnalyzeSeq(e.items, taint);
      ArrDone(s0, State(), e, les, taint, t);
      var shape := PopClosure();
      BeValid();
      le := LArr(shape, les);
    }

    method Analyze(e: Expr, taint: S.Analysis) returns (le: LExpr, t: S.Analysis)
      requires Valid() && Resolvable(State(), FreeIds(e, Sc(State())))
      modifies this
      ensures Valid() && Analyzed(old(State()), State(), e, le, taint, t)
      decreases e, 1, 0
    {
      hide *;
      ghost var s0 := State();
      FreeParts(e, Sc(s0));
      match e
      case Lit(v) =>
        LitDone(s0, e, taint);
        le, t := LLit(v), taint;
      case Ref(n) => le, t := AnalyzeRef(n, taint);
      case SuperField(f) =>
        le, t := AnalyzeSuperField(f, taint);
      case Node(op, kids) =>
        var les;
        les, t := AnalyzeSeq(kids, taint);
        NodeDone(s0, State(), e, les, taint, t);
        le := LNode(op, les);
      case Arr(_) => le, t := AnalyzeArr(e, taint);
      case Local(binds, body) =>
        if binds == [] {
          NoBinds(e, Sc(s0));
          le, t := Analyze(body, taint);
          NoBindsDone(s0, State(), e, le, taint, t);
        } else {
          le, t := AnalyzeLocal(e, taint);
        }
      case Fn(_, _) => le, t := AnalyzeFn(e, taint);
      case Obj(def) =>
        var ldef;
        ldef, t := AnalyzeObj(def, taint);
        ObjIsDone(s0, State(), e, ldef, taint, t);
        le := LObj(ldef);
      case Extend(base, def) =>
        ExtendResolvable(s0, e);
        var lbase, t1 := Analyze(base, taint);
        ghost var s1 := State();
        ExtendThenObj(s0, s1, e, lbase, taint, t1);
        var ldef;
        ldef, t := AnalyzeObj(def, t1);
        ExtendDone(s0, s1, State(), e, lbase, ldef, taint, t1, t);
        le := LExtend(lbase, ldef);
      case Comp(_, _) => le, t := AnalyzeComp(e, taint);
    }
  }
}
