/** The frame of an object: the object itself takes the first id, and whether its cell is ever
    filled depends on what the members turn out to mention. */
module ObjectFrames {
  import opened Options
  import opened Syntax
  import opened Resolution
  import opened ResolutionLaws
  import opened CaptureStack
  import opened NameStacks
  import opened CaptureOrder
  import opened FirstUse
  import opened AnalyzerState
  import opened CaptureWalks
  import opened AnalyzerContracts
  import S = Siblings

  /** The pseudo-local that stands for the object. */
  function ThisLocal(depth: nat): LocalDef { LocalDef(None, depth, S.Nothing, true, false) }

  ghost function ObjBound(s0: Snap, ns: seq<Name>): set<Name> {
    NameSet(ns) + {Self, Super} + if NoObject(s0) then {Dollar} else {}
  }

  /** Inside the object's scope, before its locals are allocated. */
  ghost function Entered(s: Snap): Snap
    requires Good(s)
  {
    var p := Defined(PushedFrame(s), ThisLocal(s.depth));
    p.(self := Some(|s.defs|), dollar := if s.dollar.Some? then s.dollar else Some(|s.defs|),
       selfUsed := false, superUsed := false, dollarUsed := s.dollar.Some? && s.dollarUsed)
  }

  lemma EnteredGood(s: Snap)
    requires Good(s)
    ensures Good(Entered(s)) && FrameOpen(Entered(s), |s.defs|) && Sc(Entered(s)) == SelfScope(Sc(s))
    ensures NameMap(Entered(s).defs) == NameMap(s.defs)
  {
    hide StackOk, ScopeOf;
    PushFrameGood(s);
    DefinedGood(PushedFrame(s), ThisLocal(s.depth), |s.defs|);
    BindObject(s.defs, ThisLocal(s.depth), s.self, s.dollar);
    assert (s.defs + [ThisLocal(s.depth)])[..|s.defs|] == s.defs;
  }

  lemma EnteredSize(s: Snap)
    requires Good(s)
    ensures |Entered(s).defs| == |s.defs| + 1
  {}

  ghost predicate OpenedObj(s0: Snap, s1: Snap, ns: seq<Name>) {
    && Inside(s0, s1, ObjBound(s0, ns)) && s1.depth == s0.depth
    && s1.self == Some(|s0.defs|) && s1.dollar == (if s0.dollar.Some? then s0.dollar else Some(|s0.defs|))
    && !s1.selfUsed && !s1.superUsed && s1.dollarUsed == (s0.dollar.Some? && s0.dollarUsed)
    && s1.errored == (s0.errored || !Distinct(ns)) && Dom(s1) == Dom(s0) + SelfNames + NameSet(ns)
    && (Distinct(ns) ==> Sc(s1) == BindAll(SelfScope(Sc(s0)), ns) && |s1.defs| == |s0.defs| + 1 + |ns|)
    && (forall n :: n in Sc(s1).ids && Sc(s1).ids[n] == |s0.defs| ==> n in SelfNames && (n == Dollar ==> s0.dollar.None?))
    && |s0.defs| < |s1.defs| && s1.defs[|s0.defs|].name.None? && FrameFrom(s1, |s0.defs|)
    && forall i :: |s0.defs| < i < |s1.defs| ==> s1.defs[i].name.Some?
  }

  lemma SelfScopeIds(s: Snap, n: Name)
    requires Good(s) && n in SelfScope(Sc(s)).ids
    ensures n !in SelfNames ==> n in Sc(s).ids && SelfScope(Sc(s)).ids[n] == Sc(s).ids[n] < |s.defs|
    ensures n in {Self, Super} ==> SelfScope(Sc(s)).ids[n] == |s.defs|
    ensures n == Dollar && s.dollar.Some? ==> n in Sc(s).ids && SelfScope(Sc(s)).ids[n] == Sc(s).ids[n] < |s.defs|
    ensures n == Dollar && s.dollar.None? ==> n !in Sc(s).ids && SelfScope(Sc(s)).ids[n] == |s.defs|
  {
    OnlyObjectNames(s);
    if n in Sc(s).ids { LiveId(s, n); }
  }

  lemma OpenedObject(s0: Snap, s1: Snap, ns: seq<Name>)
    requires Good(s0) && Good(Entered(s0)) && Sc(Entered(s0)) == SelfScope(Sc(s0))
    requires Allocated(Entered(s0), s1, ns) && FrameOpen(s1, |s0.defs|) && forall i :: 0 <= i < |ns| ==> ns[i].Id?
    ensures OpenedObj(s0, s1, ns)
  {
    hide StackOk, ScopeOf, BindAll, SelfScope, Inside, Good;
    OpenedInside(s0, s1, ns);
    assert s1.defs[|s0.defs|] == s1.defs[..|s0.defs| + 1][|s0.defs|];
    OpenedNames(s0, s1, ns);
    assert Dom(s1) == Dom(s0) + SelfNames + NameSet(ns) by { SelfDom(s0); }
  }

  lemma OpenedInside(s0: Snap, s1: Snap, ns: seq<Name>)
    requires Good(s0) && Good(Entered(s0)) && Sc(Entered(s0)) == SelfScope(Sc(s0))
    requires Allocated(Entered(s0), s1, ns) && FrameOpen(s1, |s0.defs|) && forall i :: 0 <= i < |ns| ==> ns[i].Id?
    ensures Inside(s0, s1, ObjBound(s0, ns))
  {
    hide StackOk, ScopeOf, BindAll, SelfScope;
    NonEmpty(s0);
    assert s1.frames[..|s0.frames|] == s0.frames;
    OpenedNames(s0, s1, ns);
    forall n | n in Sc(s0).ids ensures n in Sc(Entered(s0)).ids { KeptBySelf(s0, n); }
  }

  lemma OpenedNames(s0: Snap, s1: Snap, ns: seq<Name>)
    requires Good(s0) && Good(Entered(s0)) && Sc(Entered(s0)) == SelfScope(Sc(s0)) && Allocated(Entered(s0), s1, ns)
    requires forall i :: 0 <= i < |ns| ==> ns[i].Id?
    ensures forall n :: n in Sc(s1).ids && n !in ObjBound(s0, ns) ==> n in Sc(s0).ids && Sc(s1).ids[n] == Sc(s0).ids[n]
    ensures forall n :: n in Sc(s1).ids && n in ObjBound(s0, ns) ==> Sc(s1).ids[n] >= |s0.defs|
    ensures forall n :: n in Sc(s1).ids && Sc(s1).ids[n] == |s0.defs| ==> n in SelfNames && (n == Dollar ==> s0.dollar.None?)
  {
    hide StackOk, ScopeOf, BindAll, SelfScope, Good;
    forall n | n in Sc(s1).ids
      ensures n !in ObjBound(s0, ns) ==> n in Sc(s0).ids && Sc(s1).ids[n] == Sc(s0).ids[n]
      ensures n in ObjBound(s0, ns) ==> Sc(s1).ids[n] >= |s0.defs|
      ensures Sc(s1).ids[n] == |s0.defs| ==> n in SelfNames && (n == Dollar ==> s0.dollar.None?)
    {
      if n !in NameSet(ns) { SelfScopeIds(s0, n); }
    }
  }

  lemma KeptBySelf(s: Snap, n: Name)
    requires n in Sc(s).ids
    ensures n in SelfScope(Sc(s)).ids
  {}

  lemma SelfDom(s: Snap)
    ensures SelfScope(Sc(s)).ids.Keys == Dom(s) + SelfNames
  {}

  lemma ObjResolvable(s0: Snap, s1: Snap, def: ObjBody)
    requires Good(s0) && OpenedObj(s0, s1, Names(def.locals)) && Resolvable(s0, IdsOf(FVObj(def), Sc(s0)))
    ensures Good(s1) && Resolvable(s1, IdsOf(FVBinds(def.locals), Sc(s1))) && Resolvable(s1, IdsOf(FVBinds(def.fields), Sc(s1)))
  {
    hide StackOk, ScopeOf, CanResolve, Near, IdsOf, BindAll, SelfScope;
    var free, bound := FVBinds(def.locals) + FVBinds(def.fields), ObjBound(s0, Names(def.locals));
    assert free - bound <= FVObj(def);
    IdsOfSubset(free - bound, FVObj(def), Sc(s0));
    InnerResolvable(s0, s1, bound, free);
    IdsOfSubset(FVBinds(def.locals), free, Sc(s1));
    IdsOfSubset(FVBinds(def.fields), free, Sc(s1));
  }

  lemma ObjFrom(s0: Snap, s1: Snap, def: ObjBody)
    requires OpenedObj(s0, s1, Names(def.locals))
    ensures |s0.defs| < |s1.defs| && FrameFrom(s1, |s0.defs| + 1)
  {
    hide Inside, SelfScope, BindAll;
  }

  /** Members analysed, seen from the object's own depth. */
  lemma MembersAnalyzed(s1: Snap, sA: Snap, sB: Snap, sC: Snap, def: ObjBody, lbs: seq<LBind>, lfs: seq<LField>,
                 t0: S.Analysis, t1: S.Analysis, t2: S.Analysis)
    requires Good(s1) && Good(sA) && Good(sB) && Good(sC)
    requires BindsDone(s1, sA, def.locals, lbs, 1, t0, t1) && SettledFrom(sA, sB) && FieldsDone(sB, sC, def.fields, lfs, t1, t2)
    ensures MembersDone(s1, sC.(depth := s1.depth), def, lbs, lfs, t0, t2)
    ensures sC.depth == s1.depth + 1
  {
    hide StackOk, ScopeOf, Grown, Tainted, WFBinds, FVBinds, ResBinds, ResFields, IdsOf, Near, Distinct, BindsInTurn,
         FieldsInTurn, MembersInTurn;
    var a, b := FVBinds(def.locals), FVBinds(def.fields);
    MembersTurn(s1, sA, sB, sC, def, lbs, lfs, a, b, WFBinds(def.locals, Dom(s1)), WFBinds(def.fields, Dom(sB)));
    SettledScope(sA, sB);
    EffectScope(s1, sA, a, WFBinds(def.locals, Dom(s1)));
    BodyEffect(s1, sA, sB, sC, a, b, WFBinds(def.locals, Dom(s1)), WFBinds(def.fields, Dom(s1)));
    TwoTaints(t0, t1, t2, a, b, OwnBinds(def.locals, NoObject(s1)), OwnBinds(def.fields, NoObject(s1)), Sc(s1), sA, sB, sC, b,
              WFBinds(def.fields, Dom(s1)));
    if Distinct(Names(def.locals)) && WFBinds(def.locals, Dom(s1)) {
      ResBindsGrows(def.locals, lbs, Sc(s1), Top(sA), Top(sC), 1);
    }
  }

  /** Locals and fields, seen from the inside of the object's frame. */
  ghost predicate MembersInTurn(s1: Snap, s2: Snap, def: ObjBody, lbs: seq<LBind>, lfs: seq<LField>)
    requires Good(s1) && Good(s2)
  {
    Distinct(Names(def.locals)) && WFBinds(def.locals, Dom(s1)) && WFBinds(def.fields, Dom(s1)) ==>
      && Follows(s1, s2, OrderBinds(def.locals) + OrderBinds(def.fields))
      && OrderedBinds(def.locals, lbs, Sc(s1), Top(s2)) && OrderedFields(def.fields, lfs, Sc(s1), Top(s2))
  }

  lemma MembersTurn(s1: Snap, sA: Snap, sB: Snap, sC: Snap, def: ObjBody, lbs: seq<LBind>, lfs: seq<LField>,
                    ns: set<Name>, ns': set<Name>, ok: bool, ok': bool)
    requires Good(s1) && Good(sA) && Good(sB) && Good(sC) && Effect(s1, sA, ns, ok) && SettledFrom(sA, sB)
    requires Effect(sB, sC, ns', ok') && BindsInTurn(s1, sA, def.locals, lbs) && FieldsInTurn(sB, sC, def.fields, lfs)
    ensures Good(sC.(depth := s1.depth)) && MembersInTurn(s1, sC.(depth := s1.depth), def, lbs, lfs)
  {
    hide StackOk, ScopeOf, Effect, SettledFrom, Follows, Distinct, WFBinds, OrderedBinds, OrderedFields, Near, Grows;
    BodyEffect(s1, sA, sB, sC, ns, ns', ok, ok');
    EffectScope(s1, sA, ns, ok);
    if Distinct(Names(def.locals)) && WFBinds(def.locals, Dom(s1)) && WFBinds(def.fields, Dom(s1)) {
      FollowsSettled(s1, sA, sB, sC, OrderBinds(def.locals), OrderBinds(def.fields), ns, ok);
      OrderedBindsGrow(def.locals, lbs, Sc(s1), Top(sA), Top(sC));
    }
  }

  ghost predicate MembersDone(s1: Snap, s2: Snap, def: ObjBody, lbs: seq<LBind>, lfs: seq<LField>,
                              t0: S.Analysis, t2: S.Analysis)
    requires Good(s1)
  {
    var a, b := FVBinds(def.locals), FVBinds(def.fields);
    && Good(s2) && Effect(s1, s2, a + b, WFBinds(def.locals, Dom(s1)) && WFBinds(def.fields, Dom(s1)))
    && Tainted(t0, t2, IdsOf(a + b, Sc(s1)), OwnBinds(def.locals, NoObject(s1)) || OwnBinds(def.fields, NoObject(s1)), s2)
    && (Distinct(Names(def.locals)) && WFBinds(def.locals, Dom(s1)) ==> ResBinds(def.locals, lbs, Sc(s1), Top(s2), 1))
    && (WFBinds(def.fields, Dom(s1)) ==> ResFields(def.fields, lfs, Sc(s1), Top(s2)))
    && MembersInTurn(s1, s2, def, lbs, lfs)
  }

  /** The state outside the object again, `s2` being the innermost one at the object's own depth. */
  ghost function LeftObj(s0: Snap, s2: Snap): Snap
    requires s2.frames != [] && s2.caps != [] && |s0.defs| <= |s2.defs|
  {
    Left(s0, s2).(selfUsed := s0.selfUsed, superUsed := s0.superUsed,
                  dollarUsed := if s0.dollar.None? then s0.dollarUsed else s2.dollarUsed)
  }

  /** Whether the object's own cell is read at all. */
  predicate LateBound(s0: Snap, s2: Snap) { s2.selfUsed || s2.superUsed || (s0.dollar.None? && s2.dollarUsed) }

  ghost predicate ObjAnalyzed(s0: Snap, s1: Snap, def: ObjBody, ldef: LObjBody, t0: S.Analysis, t1: S.Analysis)
    requires Good(s0) && Good(s1)
  {
    && Effect(s0, s1, FVObj(def), WFObj(def, Dom(s0)))
    && (WFObj(def, Dom(s0)) ==> ResObj(def, ldef, Sc(s0), Top(s1)))
    && Tainted(t0, t1, IdsOf(FVObj(def), Sc(s0)), OwnObj(def, NoObject(s0)), s1)
    && ObjInTurn(s0, s1, def, ldef)
  }

  ghost predicate ObjInTurn(s0: Snap, s1: Snap, def: ObjBody, ldef: LObjBody)
    requires Good(s0) && Good(s1)
  {
    WFObj(def, Dom(s0)) ==> Follows(s0, s1, OrderObj(def)) && OrderedObj(def, ldef, Sc(s0), Top(s1))
  }

  /** `$` is bound by an object only when no object encloses it, and then it is unbound outside. */
  lemma HidesObj(s0: Snap, s1: Snap, ns: seq<Name>)
    requires Good(s0) && OpenedObj(s0, s1, ns)
    ensures Hides(Sc(s0), Sc(s1), NameSet(ns) + {Self, Super}, |s0.defs|)
  {
    hide StackOk, ScopeOf, Near, BindAll, SelfScope;
    HidesInside(s0, s1, ObjBound(s0, ns));
    OnlyObjectNames(s0);
    forall n ensures Low(Sc(s1), n, |s0.defs|) == if n in NameSet(ns) + {Self, Super} then None else Low(Sc(s0), n, |s0.defs|) {
      assert Low(Sc(s1), n, |s0.defs|) == if n in ObjBound(s0, ns) then None else Low(Sc(s0), n, |s0.defs|);
    }
  }

  lemma ObjLeft(s0: Snap, s1: Snap, s2: Snap, def: ObjBody, lbs: seq<LBind>, lfs: seq<LField>, free: set<Name>, ok: bool)
    requires Good(s0) && OpenedObj(s0, s1, Names(def.locals)) && Good(s1) && Good(s2) && Effect(s1, s2, free, ok)
    requires MembersInTurn(s1, s2, def, lbs, lfs)
    requires s2.frames != [] && s2.caps != [] && |s0.defs| <= |s2.defs| && Good(LeftObj(s0, s2))
    requires ShapeOk(TopShape(s2), Top(LeftObj(s0, s2))) && TopShape(s2).n == |s1.defs| - |s0.defs|
    requires Top(s2) == View(Ids(TopShape(s2), Top(LeftObj(s0, s2))), |s0.defs|, |s1.defs| - |s0.defs|, false, true)
    ensures ObjInTurn(s0, LeftObj(s0, s2), def, LObjBody(TopShape(s2), LateBound(s0, s2), lbs, lfs))
  {
    hide StackOk, ScopeOf, Effect, Walked, Distinct, WFBinds, OrderedBinds, OrderedFields, Near, Inside, InOrder, BindAll,
         SelfScope, NameSet, TopShape, Hides;
    var ns := Names(def.locals);
    if WFObj(def, Dom(s0)) {
      ObjWF(s0, s1, def);
      HidesObj(s0, s1, ns);
      LeaveWalk(s0, s1, s2, ObjBound(s0, ns), NameSet(ns) + {Self, Super}, free, ok, OrderBinds(def.locals) + OrderBinds(def.fields));
      assert Top(LeftObj(s0, s2)) == Top(Left(s0, s2));
      NextId(s0);
    }
  }

  lemma ObjFree(s0: Snap, def: ObjBody)
    requires Good(s0)
    ensures var free := FVBinds(def.locals) + FVBinds(def.fields);
            IdsOf(free - ObjBound(s0, Names(def.locals)), Sc(s0)) == IdsOf(FVObj(def), Sc(s0))
  {
    OnlyObjectNames(s0);
    var free, bound := FVBinds(def.locals) + FVBinds(def.fields), ObjBound(s0, Names(def.locals));
    forall id | id in IdsOf(FVObj(def), Sc(s0)) ensures id in IdsOf(free - bound, Sc(s0)) {
      var n :| n in FVObj(def) && n in Sc(s0).ids && Sc(s0).ids[n] == id;
      assert n in free - bound;
    }
  }

  lemma LeaveObjTaint(s0: Snap, s1: Snap, s2: Snap, def: ObjBody, ok: bool, t0: S.Analysis, t2: S.Analysis)
    requires Good(s0) && OpenedObj(s0, s1, Names(def.locals)) && Good(s1) && Good(s2)
    requires s2.frames != [] && s2.caps != [] && |s0.defs| <= |s2.defs|
    requires var free := FVBinds(def.locals) + FVBinds(def.fields);
             && Effect(s1, s2, free, ok)
             && Tainted(t0, t2, IdsOf(free, Sc(s1)), OwnBinds(def.locals, NoObject(s1)) || OwnBinds(def.fields, NoObject(s1)), s2)
    ensures Tainted(t0, t2, IdsOf(FVObj(def), Sc(s0)), OwnObj(def, NoObject(s0)), LeftObj(s0, s2))
  {
    hide StackOk, ScopeOf, Good, Grown, Tainted, KeepsOuter, Inside, Distinct, FrameOk, IdsOf, BindAll, SelfScope, Near, FrameFrom;
    var free, bound := FVBinds(def.locals) + FVBinds(def.fields), ObjBound(s0, Names(def.locals));
    LeaveTaint(s0, s1, s2, bound, free, OwnBinds(def.locals, false) || OwnBinds(def.fields, false), t0, t2, LeftObj(s0, s2));
    ObjFree(s0, def);
  }

  lemma LeaveObj(s0: Snap, s1: Snap, s2: Snap, def: ObjBody, ok: bool)
    requires Good(s0) && OpenedObj(s0, s1, Names(def.locals)) && Good(s1) && Good(s2)
    requires Effect(s1, s2, FVBinds(def.locals) + FVBinds(def.fields), ok)
    ensures s2.frames != [] && s2.caps != [] && |s0.defs| <= |s2.defs| && Good(LeftObj(s0, s2))
    ensures var s3, sh := LeftObj(s0, s2), TopShape(s2);
            && Effect(s0, s3, FVObj(def), Distinct(Names(def.locals)) && ok)
            && FrameOk(sh, Top(s3), IdsOf(FVObj(def), Sc(s0))) && sh.n == |s1.defs| - |s0.defs|
            && Top(s2) == View(Ids(sh, Top(s3)), |s0.defs|, |s1.defs| - |s0.defs|, false, true)
  {
    hide StackOk, ScopeOf, Grown, Tainted, KeepsOuter, Inside, Distinct, FrameOk, IdsOf, BindAll, SelfScope, Near;
    var free, bound := FVBinds(def.locals) + FVBinds(def.fields), ObjBound(s0, Names(def.locals));
    LeaveFrame(s0, s1, s2, bound, free, ok);
    ObjFree(s0, def);
    ObjFlags(s0, s1, s2, def, ok);
    InsideDefs(s0, s1, bound);
    KeepsOuterBelow(s1.defs, s2.defs, s1.depth, |s0.defs|);
    assert Top(LeftObj(s0, s2)) == Top(Left(s0, s2));
  }

  lemma ObjDone(s0: Snap, s1: Snap, s2: Snap, def: ObjBody, lbs: seq<LBind>, lfs: seq<LField>, t0: S.Analysis, t2: S.Analysis)
    requires Good(s0) && OpenedObj(s0, s1, Names(def.locals)) && Good(s1) && MembersDone(s1, s2, def, lbs, lfs, t0, t2)
    ensures s2.frames != [] && s2.caps != [] && |s0.defs| <= |s2.defs| && Good(LeftObj(s0, s2))
    ensures ObjAnalyzed(s0, LeftObj(s0, s2), def, LObjBody(TopShape(s2), LateBound(s0, s2), lbs, lfs), t0, t2)
  {
    hide StackOk, ScopeOf, Grown, Tainted, Inside, Distinct, FrameOk, ResBinds, ResFields, ResObj, WFBinds, WFObj, IdsOf,
         BindAll, SelfScope, Near, Effect, Top, LeftObj, TopShape, LateBound, FVObj, MembersInTurn, ObjInTurn;
    var ok := WFBinds(def.locals, Dom(s1)) && WFBinds(def.fields, Dom(s1));
    LeaveObj(s0, s1, s2, def, ok);
    LeaveObjTaint(s0, s1, s2, def, ok, t0, t2);
    FrameShape(TopShape(s2), Top(LeftObj(s0, s2)), IdsOf(FVObj(def), Sc(s0)));
    ObjLeft(s0, s1, s2, def, lbs, lfs, FVBinds(def.locals) + FVBinds(def.fields), ok);
    ObjWF(s0, s1, def);
    ObjFlags(s0, s1, s2, def, ok);
    if WFObj(def, Dom(s0)) {
      ObjRes(s0, s1, s2, LeftObj(s0, s2), def, LObjBody(TopShape(s2), LateBound(s0, s2), lbs, lfs));
    }
  }

  lemma ObjWF(s0: Snap, s1: Snap, def: ObjBody)
    requires Dom(s1) == Dom(s0) + SelfNames + NameSet(Names(def.locals))
    ensures WFObj(def, Dom(s0)) == (Distinct(Names(def.locals)) && WFBinds(def.locals, Dom(s1)) && WFBinds(def.fields, Dom(s1)))
  {}

  lemma ObjFlags(s0: Snap, s1: Snap, s2: Snap, def: ObjBody, ok: bool)
    requires Good(s0) && Good(s1) && OpenedObj(s0, s1, Names(def.locals))
    requires Effect(s1, s2, FVBinds(def.locals) + FVBinds(def.fields), ok)
    requires s2.frames != [] && s2.caps != [] && |s0.defs| <= |s2.defs|
    ensures var free, s3 := FVBinds(def.locals) + FVBinds(def.fields), LeftObj(s0, s2);
            && s3.selfUsed == (s0.selfUsed || (s0.self.Some? && Self in FVObj(def)))
            && s3.superUsed == (s0.superUsed || (s0.self.Some? && Super in FVObj(def)))
            && s3.dollarUsed == (s0.dollarUsed || (s0.dollar.Some? && Dollar in FVObj(def)))
            && (LateBound(s0, s2) <==> Self in free || Super in free || (s0.dollar.None? && Dollar in free))
  {}

  /** An object's members read the object's own cell only when the object is late bound; otherwise
      they resolve just as well without that cell. */
  lemma ObjRes(s0: Snap, s1: Snap, s2: Snap, s3: Snap, def: ObjBody, ldef: LObjBody)
    requires Good(s0) && Good(s1) && Good(s2) && Good(s3) && OpenedObj(s0, s1, Names(def.locals)) && Distinct(Names(def.locals))
    requires ResBinds(def.locals, ldef.locals, Sc(s1), Top(s2), 1) && ResFields(def.fields, ldef.fields, Sc(s1), Top(s2))
    requires FrameOk(ldef.shape, Top(s3), IdsOf(FVObj(def), Sc(s0))) && ldef.shape.n == 1 + |def.locals|
    requires var v := Top(s2); v == View(Ids(ldef.shape, Top(s3)), |s0.defs|, 1 + |def.locals|, false, true)
    requires var free := FVBinds(def.locals) + FVBinds(def.fields);
             ldef.late <==> Self in free || Super in free || (s0.dollar.None? && Dollar in free)
    ensures ResObj(def, ldef, Sc(s0), Top(s3))
  {
    hide StackOk, ScopeOf, Inside, BindAll, SelfScope, Near, ResUse;
    var v, free := Top(s2), FVBinds(def.locals) + FVBinds(def.fields);
    assert BodyScope(def, Sc(s0)) == Sc(s1) && Sc(s0).next == |s0.defs| by { NextId(s0); }
    if !ldef.late {
      assert ObjView(Top(s3), ldef, |s0.defs|) == Holed(NoSup(v));
      OwnIdUnused(s0, s1, Names(def.locals), free);
      BindsHoled(def.locals, ldef.locals, Sc(s1), v, 1, free);
      FieldsHoled(def.fields, ldef.fields, Sc(s1), v, free);
    }
  }

  lemma NextId(s: Snap)
    ensures Sc(s).next == |s.defs|
  {}

  lemma OwnIdUnused(s0: Snap, s1: Snap, ns: seq<Name>, free: set<Name>)
    requires Good(s0) && Good(s1) && OpenedObj(s0, s1, ns) && Self !in free && Super !in free && (s0.dollar.None? ==> Dollar !in free)
    ensures |s0.defs| !in IdsOf(free, Sc(s1)) && |s0.defs| < Sc(s1).next
  {}

  lemma BindsHoled(bs: seq<Bind>, lbs: seq<LBind>, sc: Scope, v: View, off: nat, free: set<Name>)
    requires ResBinds(bs, lbs, sc, v, off) && FVBinds(bs) <= free && Super !in free
    requires v.first !in IdsOf(free, sc) && v.first < sc.next && !v.hole
    ensures ResBinds(bs, lbs, sc, Holed(NoSup(v)), off)
  {
    hide ResUse;
    forall i | 0 <= i < |bs| ensures ResUse(bs[i].value, lbs[i].value, lbs[i].shape, sc, Holed(NoSup(v))) {
      InFVBinds(bs, i);
      ResUseMoves(bs[i].value, lbs[i].value, lbs[i].shape, sc, sc, v, NoSup(v));
      ResUseHoled(bs[i].value, lbs[i].value, lbs[i].shape, sc, NoSup(v));
    }
  }

  lemma FieldsHoled(fs: seq<Bind>, lfs: seq<LField>, sc: Scope, v: View, free: set<Name>)
    requires ResFields(fs, lfs, sc, v) && FVBinds(fs) <= free && Super !in free
    requires v.first !in IdsOf(free, sc) && v.first < sc.next && !v.hole
    ensures ResFields(fs, lfs, sc, Holed(NoSup(v)))
  {
    hide ResUse;
    forall i | 0 <= i < |fs| ensures ResUse(fs[i].value, lfs[i].value, lfs[i].shape, sc, Holed(NoSup(v))) {
      InFVBinds(fs, i);
      ResUseMoves(fs[i].value, lfs[i].value, lfs[i].shape, sc, sc, v, NoSup(v));
      ResUseHoled(fs[i].value, lfs[i].value, lfs[i].shape, sc, NoSup(v));
    }
  }

  lemma ReadyToLeave(s0: Snap, s1: Snap, sC: Snap, def: ObjBody, lbs: seq<LBind>, lfs: seq<LField>,
                     t0: S.Analysis, t2: S.Analysis)
    requires Good(s0) && Good(s1) && Good(sC) && OpenedObj(s0, s1, Names(def.locals))
    requires MembersDone(s1, sC.(depth := s1.depth), def, lbs, lfs, t0, t2)
    ensures sC.frames != [] && sC.caps != [] && |s0.defs| < |sC.defs| && s1.depth == s0.depth
    ensures NameMap(sC.defs[..|s0.defs| + 1]) == NameMap(sC.defs[..|s0.defs|])
    ensures forall i :: |s0.defs| < i < |sC.defs| ==> sC.defs[i].name.Some?
  {
    hide Near, ScopeOf, Tainted, ResBinds, ResFields, WFBinds, FVBinds, IdsOf, Grown, Distinct, NameSet, Inside, BindAll, SelfScope;
    NonEmpty(sC);
    var ds := sC.defs[..|s0.defs| + 1];
    assert ds[..|s0.defs|] == sC.defs[..|s0.defs|];
    ThisNameless(s0, s1, sC, Names(def.locals));
  }

  lemma ThisNameless(s0: Snap, s1: Snap, sC: Snap, ns: seq<Name>)
    requires OpenedObj(s0, s1, ns) && SameDefs(s1.defs, sC.defs)
    ensures |s0.defs| < |sC.defs| && sC.defs[|s0.defs|].name.None?
  {}

  lemma ObjIsDone(s0: Snap, s1: Snap, e: Expr, ldef: LObjBody, t0: S.Analysis, t1: S.Analysis)
    requires e.Obj? && Good(s0) && Good(s1) && ObjAnalyzed(s0, s1, e.def, ldef, t0, t1)
    ensures Analyzed(s0, s1, e, LObj(ldef), t0, t1)
  {
    hide StackOk, ScopeOf, Grown, Tainted, Near, Effect, FVObj, WFObj, ResObj, OrderedObj, OrderObj, Follows;
  }

  lemma ExtendResolvable(s: Snap, e: Expr)
    requires e.Extend? && Good(s) && Resolvable(s, FreeIds(e, Sc(s)))
    ensures Resolvable(s, FreeIds(e.base, Sc(s))) && Resolvable(s, IdsOf(FVObj(e.def), Sc(s)))
  {
    hide StackOk, ScopeOf, CanResolve, Near, FVObj;
    IdsOfSubset(FV(e.base), FV(e), Sc(s));
    IdsOfSubset(FVObj(e.def), FV(e), Sc(s));
  }

  lemma ExtendThenObj(s0: Snap, s1: Snap, e: Expr, lbase: LExpr, t0: S.Analysis, t1: S.Analysis)
    requires e.Extend? && Good(s0) && Good(s1) && Analyzed(s0, s1, e.base, lbase, t0, t1)
    requires Resolvable(s0, IdsOf(FVObj(e.def), Sc(s0)))
    ensures Resolvable(s1, IdsOf(FVObj(e.def), Sc(s1)))
  {
    hide StackOk, ScopeOf, CanResolve, Near, FVObj, Effect, Tainted, Resolvable, IdsOf;
    EffectScope(s0, s1, FV(e.base), WF(e.base, Dom(s0)));
    EffectResolvable(s0, s1, FV(e.base), WF(e.base, Dom(s0)), IdsOf(FVObj(e.def), Sc(s0)));
  }

  lemma ExtendTurn(s0: Snap, s1: Snap, s2: Snap, e: Expr, lbase: LExpr, ldef: LObjBody, ns: set<Name>, ns': set<Name>,
                   ok: bool, ok': bool)
    requires e.Extend? && Good(s0) && Good(s1) && Good(s2) && Effect(s0, s1, ns, ok) && Effect(s1, s2, ns', ok')
    requires InTurn(s0, s1, e.base, lbase) && ObjInTurn(s1, s2, e.def, ldef)
    ensures InTurn(s0, s2, e, LExtend(lbase, ldef))
  {
    hide Good, Effect, Follows, WFObj, OrderedObj, OrderObj, Top, Sc, Grows;
    EffectScope(s0, s1, ns, ok);
    EffectView(s1, s2, ns', ok');
    if WF(e, Dom(s0)) {
      FollowsOn(s0, s1, s2, Order(e.base), OrderObj(e.def), ns, ok);
      OrderedGrows(e.base, lbase, Sc(s0), Top(s1), Top(s2));
    }
  }

  lemma ExtendTaint(s1: Snap, s2: Snap, e: Expr, sc: Scope, top: bool, ok: bool, t0: S.Analysis, t1: S.Analysis, t2: S.Analysis)
    requires e.Extend? && Tainted(t0, t1, FreeIds(e.base, sc), Own(e.base, top), s1)
    requires Tainted(t1, t2, IdsOf(FVObj(e.def), sc), OwnObj(e.def, top), s2) && Effect(s1, s2, FVObj(e.def), ok)
    ensures Tainted(t0, t2, FreeIds(e, sc), Own(e, top), s2)
  {
    hide FVObj, Effect, Tainted, IdsOf, OwnObj;
    TaintedStep(t0, t1, t2, FreeIds(e.base, sc), IdsOf(FVObj(e.def), sc), Own(e.base, top), OwnObj(e.def, top), s1, s2, FVObj(e.def), ok);
    IdsOfUnion(FV(e.base), FVObj(e.def), sc);
  }

  lemma ExtendDone(s0: Snap, s1: Snap, s2: Snap, e: Expr, lbase: LExpr, ldef: LObjBody,
                   t0: S.Analysis, t1: S.Analysis, t2: S.Analysis)
    requires e.Extend? && Good(s0) && Good(s1) && Good(s2) && Analyzed(s0, s1, e.base, lbase, t0, t1)
    requires ObjAnalyzed(s1, s2, e.def, ldef, t1, t2)
    ensures Analyzed(s0, s2, e, LExtend(lbase, ldef), t0, t2)
  {
    hide StackOk, ScopeOf, Near, FVObj, Effect, Tainted, Resolvable, IdsOf, WFObj, ResObj, InTurn, ObjInTurn, OwnObj, Own, Top,
         Grows;
    var ok, ok' := WF(e.base, Dom(s0)), WFObj(e.def, Dom(s0));
    EffectScope(s0, s1, FV(e.base), ok);
    EffectTrans(s0, s1, s2, FV(e.base), FVObj(e.def), ok, ok');
    ExtendTaint(s1, s2, e, Sc(s0), NoObject(s0), ok', t0, t1, t2);
    EffectView(s1, s2, FVObj(e.def), ok');
    ExtendTurn(s0, s1, s2, e, lbase, ldef, FV(e.base), FVObj(e.def), ok, ok');
    if ok { ResGrows(e.base, lbase, Sc(s0), Top(s1), Top(s2)); }
  }
}
