/** Two places where the packed machine departs from the meaning of the source, with the exact
    extent of each and a program that shows it. */
module Disagreements {
  import opened Options
  import opened Syntax
  import opened Resolution
  import opened ResolutionLaws
  import opened CaptureOrder
  import opened ByName
  import opened Packed
  import opened Correspondence
  import opened SafeSources
  import opened Programs

  // ---------------------------------------------------------------- the bare element shortcut

  /** A bare element is read in the iteration's own context although its slot was resolved inside
      the element's closure. The reading is right exactly when the slot is a local of the frame or
      the closure passes that very capture through in place. */
  lemma ShortcutExact(v: View, sh: Shape, s: Slot)
    requires CapsOnly(sh) && ShapeOk(sh, v) && Distinct(v.caps) && IdOf(UseView(v, sh), s).Some?
    ensures IdOf(v, s) == IdOf(UseView(v, sh), s) <==> ShortcutOk(sh, s)
  {
    if s.SCapture? {
      var src := sh.captures[s.i];
      assert IdOf(v, src) == Some(v.caps[src.i]);
    }
  }

  const YZ: seq<Bind> := [Bind("y", Lit(Num(1))), Bind("z", Lit(Bool(true)))]
  const ZGuarded: Expr := Comp(Ref(Id("y")), [For("x", Arr([Lit(Num(0))])), Cond(Ref(Id("z")))])

  /** `(local y = 1, z = true; [y for x in [0] if z])[0]` */
  const ShortcutSource: Expr := Node(Index, [Local(YZ, ZGuarded), Lit(Num(0))])

  /** The guard is analysed before the element, so `z` is the iteration frame's first capture. */
  const LZGuarded: LExpr :=
    LComp(Shape([SCapture(1)], 0), LSlot(SCapture(0)),
          [LFor(Shape([SLocal(1), SLocal(0)], 1), 0, LArrConst([Num(0)]), true), LCond(LSlot(SCapture(0)))])
  const LYZ: seq<LBind> := [LBind(0, Shape([], 0), LLit(Num(1))), LBind(1, Shape([], 0), LLit(Bool(true)))]
  const ShortcutLowered: LExpr := LNode(Index, [LLocal(Shape([], 2), LYZ, LZGuarded), LLit(Num(0))])

  ghost function ScopeYZ(): Scope { Scope(map[Id("y") := 0, Id("z") := 1], 2) }

  lemma BindsYZ()
    ensures BindAll(RootScope([]), Names(YZ)) == ScopeYZ() && Distinct(Names(YZ))
  {
    assert Idents([]) == [] && Names(YZ) == [Id("y"), Id("z")];
    assert [Id("y"), Id("z")][..1] == [Id("y")] && [Id("y")][..0] == [];
  }

  /** The program has one lowering. */
  lemma ShortcutForced(le: LExpr)
    requires Compiled(ShortcutSource, le, [])
    ensures le == ShortcutLowered
  {
    hide BindAll, Res, Ordered;
    var v0, v1 := RootView(0), View([], 0, 2, false, false);
    assert Idents([]) == [];
    KidsForced(Local(YZ, ZGuarded), le, RootScope([]), v0);
    LocalForced(le.kids[0], v0, v1);
    CompForced(le.kids[0].body, ScopeYZ(), v1);
    hide ShapeOk, IdOf;
    assert le.kids == [le.kids[0], le.kids[1]];
  }

  lemma KidsForced(e: Expr, le: LExpr, sc: Scope, v: View)
    requires Res(Node(Index, [e, Lit(Num(0))]), le, sc, v) && Ordered(Node(Index, [e, Lit(Num(0))]), le, sc, v)
    ensures le.LNode? && le.op == Index && |le.kids| == 2 && le.kids[1] == LLit(Num(0))
    ensures Res(e, le.kids[0], sc, v) && Ordered(e, le.kids[0], sc, v)
  {
    var ks := [e, Lit(Num(0))];
    assert Res(ks[0], le.kids[0], sc, v) && Ordered(ks[0], le.kids[0], sc, v) && Res(ks[1], le.kids[1], sc, v);
  }

  lemma LocalForced(le: LExpr, v0: View, v1: View)
    requires v0 == RootView(0) && v1 == View([], 0, 2, false, false)
    requires Res(Local(YZ, ZGuarded), le, RootScope([]), v0) && Ordered(Local(YZ, ZGuarded), le, RootScope([]), v0)
    ensures le.LLocal? && le == LLocal(Shape([], 2), LYZ, le.body)
    ensures Res(ZGuarded, le.body, ScopeYZ(), v1) && Ordered(ZGuarded, le.body, ScopeYZ(), v1)
  {
    BindsYZ();
    assert Idents([]) == [] && RootScope([]).next == 0;
    LocalParts(le, v0);
    NoSlots(le.shape, v0);
    assert EnterView(v0, le.shape, 0) == v1;
    ValuesForced(le.binds, v1);
  }

  lemma LocalParts(le: LExpr, v0: View)
    requires Res(Local(YZ, ZGuarded), le, RootScope([]), v0) && Ordered(Local(YZ, ZGuarded), le, RootScope([]), v0)
    ensures le.LLocal? && le.shape.n == 2 && ShapeOk(le.shape, v0)
    ensures var sc, v := BindAll(RootScope([]), Names(YZ)), EnterView(v0, le.shape, RootScope([]).next);
            && ResBinds(YZ, le.binds, sc, v, 0) && Res(ZGuarded, le.body, sc, v) && Ordered(ZGuarded, le.body, sc, v)
  {
    hide BindAll, ResBinds;
  }

  lemma NoSlots(sh: Shape, v: View)
    requires v.caps == [] && ShapeOk(sh, v) && (v.n == 0 || CapsOnly(sh))
    ensures sh.captures == []
  {
    assert sh.captures != [] ==> IdOf(v, sh.captures[0]).Some?;
  }

  lemma ValuesForced(lbs: seq<LBind>, v1: View)
    requires v1 == View([], 0, 2, false, false) && ResBinds(YZ, lbs, ScopeYZ(), v1, 0)
    ensures lbs == LYZ
  {
    forall i | 0 <= i < 2 ensures lbs[i] == LYZ[i] {
      assert ResUse(YZ[i].value, lbs[i].value, lbs[i].shape, ScopeYZ(), v1);
      NoSlots(lbs[i].shape, v1);
    }
    assert lbs == [lbs[0], lbs[1]];
  }

  /** First the guard's name, then the element's. */
  lemma OrderYZ()
    ensures Without(OrderSpecs(ZGuarded, 1), {Id("x")}) == [Id("z"), Id("y")]
  {
    assert OrderSpecs(ZGuarded, 2) == [Id("y")] && OrderSpecs(ZGuarded, 1) == [Id("z")] + [Id("y")] == [Id("z"), Id("y")];
    WithoutYZ();
  }

  lemma WithoutYZ()
    ensures Without([Id("z"), Id("y")], {Id("x")}) == [Id("z"), Id("y")]
  {
    var us, x := [Id("z"), Id("y")], {Id("x")};
    assert us[..1] == [Id("z")] && [Id("z")][..0] == [];
    assert Without([], x) == [];
    assert Without([Id("z")], x) == [] + [Id("z")] == [Id("z")];
    assert Without(us, x) == [Id("z")] + [Id("y")];
  }

  lemma TakenYZ()
    ensures Taken([], [Id("z"), Id("y")], ScopeYZ(), 2) == [1, 0]
  {
    var us, none: seq<nat> := [Id("z"), Id("y")], [];
    assert us[..1] == [Id("z")] && [Id("z")][..0] == [];
    assert none + [1] == [1];
    assert Taken(none, [Id("z")], ScopeYZ(), 2) == [1];
    assert [1] + [0] == [1, 0];
  }

  lemma FrameForced(sh: Shape, v1: View)
    requires v1 == View([], 0, 2, false, false) && ShapeOk(sh, v1) && Ids(sh, v1) == [1, 0]
    ensures sh.captures == [SLocal(1), SLocal(0)]
  {
    assert Ids(sh, v1)[0] == 1 && Ids(sh, v1)[1] == 0;
  }

  lemma CompForced(lc: LExpr, sc1: Scope, v1: View)
    requires sc1 == ScopeYZ() && v1 == View([], 0, 2, false, false)
    requires Res(ZGuarded, lc, sc1, v1) && Ordered(ZGuarded, lc, sc1, v1)
    ensures lc == LZGuarded
  {
    hide Res, Ordered, ResSpecs, OrderedSpecs, OrderSpecs, Taken, Without, IdOf;
    var sc2 := Bind1(sc1, Id("x"));
    ForForced(lc, sc1, v1, sc2);
    var ls := lc.specs[0];
    var v2 := EnterView(v1, ls.shape, 2);
    OrderYZ();
    TakenYZ();
    FrameForced(ls.shape, v1);
    assert v2 == View([1, 0], 2, 1, false, false);
    ElementForced(lc, sc2, v2);
    assert lc.specs == [lc.specs[0], lc.specs[1]];
  }

  /** An array of literals mentions nothing. */
  lemma LiteralsClosed(es: seq<Expr>)
    requires AllTrivial(es)
    ensures FV(Arr(es)) == {} && forall top :: !Own(Arr(es), top)
  {
    ConstFree(es);
    forall top ensures !OwnSeq(es, top) { OwnTrivial(es, top); }
  }

  lemma ForForced(lc: LExpr, sc1: Scope, v1: View, sc2: Scope)
    requires sc1 == ScopeYZ() && sc2 == Bind1(sc1, Id("x"))
    requires Res(ZGuarded, lc, sc1, v1) && Ordered(ZGuarded, lc, sc1, v1)
    ensures lc.LComp? && |lc.specs| == 2 && lc.specs[0].LFor?
    ensures var ls := lc.specs[0];
            && ls.slot == 0 && ls.shape.n == 1 && ls.over == LArrConst([Num(0)]) && ls.inv
            && InOrder(ls.shape, v1, Without(OrderSpecs(ZGuarded, 1), {Id("x")}), sc1, 2)
            && ResSpecs(ZGuarded, lc, 1, sc2, EnterView(v1, ls.shape, 2), v1, {} + {Id("x")})
            && OrderedSpecs(ZGuarded, lc, 1, sc2, EnterView(v1, ls.shape, 2), v1)
  {
    hide FVSpecs, OrderSpecs, Taken;
    LiteralsClosed([Lit(Num(0))]);
    var ls, none: set<Name> := lc.specs[0], {};
    assert ResSpecs(ZGuarded, lc, 0, sc1, v1, v1, none) && OrderedSpecs(ZGuarded, lc, 0, sc1, v1, v1);
    assert AllTrivial([Lit(Num(0))]) && Trivials([Lit(Num(0))]) == [Num(0)];
  }

  lemma ElementForced(lc: LExpr, sc2: Scope, v2: View)
    requires sc2 == Bind1(ScopeYZ(), Id("x")) && v2 == View([1, 0], 2, 1, false, false) && lc.LComp? && |lc.specs| == 2
    requires ResSpecs(ZGuarded, lc, 1, sc2, v2, View([], 0, 2, false, false), {} + {Id("x")})
    requires OrderedSpecs(ZGuarded, lc, 1, sc2, v2, View([], 0, 2, false, false))
    ensures lc.specs[1] == LCond(LSlot(SCapture(0))) && lc.vshape == Shape([SCapture(1)], 0) && lc.value == LSlot(SCapture(0))
  {
    assert Res(Ref(Id("z")), lc.specs[1].cond, sc2, v2);
    assert ResUse(Ref(Id("y")), lc.value, lc.vshape, sc2, v2) && OrderedUse(Ref(Id("y")), lc.value, lc.vshape, sc2, v2);
    ElementSlot(Ref(Id("y")), lc.value, lc.vshape, sc2, v2, v2, Id("y"));
  }

  ghost function EnvYZ(): Env { Rec(YZ, Root([], [])) }

  lemma {:induction false} GuardedByName(fuel: nat)
    requires fuel > 0
    ensures Eval(false, fuel, EnvYZ(), ZGuarded) == Ok(VArr([Susp(EnvYZ(), Lit(Num(1)))]))
  {
    var env, over := EnvYZ(), Arr([Lit(Num(0))]);
    var item := Susp(env, Lit(Num(0)));
    assert Names(YZ) == [Id("y"), Id("z")] && [Id("y"), Id("z")][..1] == [Id("y")];
    assert Lookup(env, Id("y")) == Some(Susp(env, Lit(Num(1))));
    assert Lookup(env, Id("z")) == Some(Susp(env, Lit(Bool(true))));
    var env1 := Iter("x", item, env);
    assert EvalSpecs(false, fuel, env1, ZGuarded, 2) == Ok([Susp(env, Lit(Num(1)))]);
    assert Force(false, fuel, Susp(env, Lit(Bool(true)))) == Ok(VTriv(Bool(true)));
    assert Eval(false, fuel, env1, Ref(Id("z"))) == Ok(VTriv(Bool(true)));
    assert EvalSpecs(false, fuel, env1, ZGuarded, 1) == Ok([Susp(env, Lit(Num(1)))]);
    assert Suspended(env, [Lit(Num(0))]) == [item];
    assert EvalIter(false, fuel, env, ZGuarded, 0, [item][1..]) == Ok([]);
    assert EvalIter(false, fuel, env, ZGuarded, 0, [item]) == Ok([Susp(env, Lit(Num(1)))] + []);
    assert Eval(false, fuel, env, over) == Ok(VArr([item]));
    assert [Susp(env, Lit(Num(1)))] + [] == [Susp(env, Lit(Num(1)))];
    assert EvalSpecs(false, fuel, env, ZGuarded, 0) == Ok([Susp(env, Lit(Num(1)))]);
  }

  /** The condition tells, before anything runs. */
  lemma ShortcutUnsafe()
    ensures Grammatical(ShortcutSource) && WF(ShortcutSource, NameSet(Idents([]))) && !SafeProgram(ShortcutSource, [])
  {
    hide Grammatical;
    assert Idents([]) == [] && Names(YZ) == [Id("y"), Id("z")];
    var dom := NameSet(Idents([])) + NameSet(Names(YZ));
    assert Id("y") in dom && Id("z") in dom by { assert Names(YZ)[0] in Names(YZ) && Names(YZ)[1] in Names(YZ); }
    OrderYZ();
    GuardUnsafe(dom);
    GuardFine(dom);
    ShortcutGrammatical();
    assert !SafeSource(ShortcutSource.kids[0], NameSet(Idents([])), false);
    assert WF(ShortcutSource.kids[0], NameSet(Idents([])));
  }

  lemma GuardUnsafe(dom: set<Name>)
    requires Id("y") in dom && Id("z") in dom
    requires Without(OrderSpecs(ZGuarded, 1), {Id("x")}) == [Id("z"), Id("y")]
    ensures !SafeSource(ZGuarded, dom, false)
  {
    var us := [Id("z"), Id("y")];
    hide OrderSpecs, Without;
    assert us[..1] == [Id("z")] && [Id("z")][..0] == [];
    assert FirstOf([], dom) == None;
    assert FirstOf([Id("z")], dom) == Some(Id("z"));
    assert FirstOf(us, dom) == Some(Id("z"));
    assert LastFor(ZGuarded, 0) && !FirstMentioned(ZGuarded, 0, dom, false);
  }

  lemma GuardFine(dom: set<Name>)
    requires Id("y") in dom && Id("z") in dom
    ensures WF(ZGuarded, dom) && WFBinds(YZ, dom)
  {
    assert WFSpecs(ZGuarded, 2, dom + {Id("x")}) && WFSpecs(ZGuarded, 1, dom + {Id("x")});
  }

  lemma ShortcutGrammatical()
    ensures Grammatical(ShortcutSource)
  {
    assert Grammatical(ZGuarded) && GrammaticalBind(YZ[0]) && GrammaticalBind(YZ[1]);
    assert Grammatical(ShortcutSource.kids[0]) && Grammatical(ShortcutSource.kids[1]);
  }

  /** Whatever lowering the analyser chooses, its first element is 1 by name, but the machine returns
      the guard. */
  lemma {:induction false} ShortcutWrong(fuel: nat, le: LExpr)
    requires fuel > 0 && Compiled(ShortcutSource, le, [])
    ensures Eval(false, fuel, Root([], []), ShortcutSource) == Ok(VTriv(Num(1)))
    ensures Exec(fuel, RootHeap([]), RootCtx, le).out == LOk(LTriv(Bool(true)))
  {
    hide Exec, Eval, Res, Ordered, Compiled;
    ShortcutForced(le);
    ShortcutMeans(fuel);
    GuardedRun(fuel);
  }

  /** The analyser accepts the program, and what it hands on is wrong. */
  method AnalyzeShortcut(ghost fuel: nat) returns (le: LExpr)
    requires fuel > 0
    ensures Compiled(ShortcutSource, le, []) && !Safe(le)
    ensures Eval(false, fuel, Root([], []), ShortcutSource) == Ok(VTriv(Num(1)))
    ensures Exec(fuel, RootHeap([]), RootCtx, le).out == LOk(LTriv(Bool(true)))
  {
    hide Exec, Eval, Res, Ordered, Compiled, Safe, SafeProgram, Grammatical, WF;
    var lir, shape := AnalyzeRoot(ShortcutSource, []);
    ShortcutUnsafe();
    le := lir.value;
    ShortcutWrong(fuel, le);
  }

  lemma {:induction false} ShortcutMeans(fuel: nat)
    requires fuel > 0
    ensures Eval(false, fuel, Root([], []), ShortcutSource) == Ok(VTriv(Num(1)))
  {
    GuardedByName(fuel);
    var env := Root([], []);
    assert Eval(false, fuel, env, ShortcutSource.kids[0]) == Eval(false, fuel, EnvYZ(), ZGuarded);
    assert Eval(false, fuel, env, ShortcutSource.kids[1]) == Ok(VTriv(Num(0)));
    assert Force(false, fuel, Susp(EnvYZ(), Lit(Num(1)))) == Ok(VTriv(Num(1)));
    assert EvalNode(false, fuel, env, ShortcutSource) == Ok(VTriv(Num(1)));
  }

  /** The frame of `y` and `z`, and the frame of one iteration. */
  ghost function HeapYZ(): Heap {
    var c := Ctx([], 1, None);
    [[], [Some(LSusp(c, LLit(Num(1)))), Some(LSusp(c, LLit(Bool(true))))]]
  }

  lemma {:induction false} GuardedRun(fuel: nat)
    requires fuel > 0
    ensures Exec(fuel, RootHeap([]), RootCtx, ShortcutLowered).out == LOk(LTriv(Bool(true)))
  {
    var z := LSusp(Ctx([], 1, None), LLit(Bool(true)));
    ElementsYZ(fuel);
    var l0 := ShortcutLowered.kids[0];
    var r := Exec(fuel, RootHeap([]), RootCtx, l0);
    hide FillBinds, PackCaptures, CacheOvers, ExecSpecs;
    assert ForceL(fuel, r.h, z).out == LOk(LTriv(Bool(true)));
    assert IndexL(fuel, r.h, LArrV([z]), LTriv(Num(0))).out == LOk(LTriv(Bool(true)));
    assert Exec(fuel, r.h, RootCtx, LLit(Num(0))) == Run(r.h, LOk(LTriv(Num(0))));
  }

  lemma {:induction false} ElementsYZ(fuel: nat)
    requires fuel > 0
    ensures Exec(fuel, RootHeap([]), RootCtx, LLocal(Shape([], 2), LYZ, LZGuarded)).out
            == LOk(LArrV([LSusp(Ctx([], 1, None), LLit(Bool(true)))]))
  {
    FilledYZ();
    assert RootHeap([])[0] == [] && RootHeap([]) == [[]];
    CachedYZ(fuel);
    IterationYZ(fuel);
    hide FillBinds, PackCaptures, CacheOvers, ExecSpecs;
    var r := Exec(fuel, HeapYZ(), Ctx([], 1, None), LZGuarded);
    assert Exec(fuel, RootHeap([]), RootCtx, LLocal(Shape([], 2), LYZ, LZGuarded)) == r;
  }

  lemma FilledYZ()
    ensures FillBinds(NewFrame([[]], 2), Ctx([], 1, None), LYZ) == Some(HeapYZ())
    ensures PackCaptures([[]], RootCtx, []) == Some([])
  {
    var h, c := NewFrame([[]], 2), Ctx([], 1, None);
    assert LYZ[..1] == [LYZ[0]] && [LYZ[0]][..0] == [];
    assert h[1] == [None, None] && h == [[], [None, None]];
    var y, z := Some(LSusp(c, LLit(Num(1)))), Some(LSusp(c, LLit(Bool(true))));
    assert [None, None][0 := y] == [y, None] && h[1 := [y, None]] == [[], [y, None]];
    assert FillBinds(h, c, LYZ[..1]) == Some([[], [y, None]]);
    assert [y, None][1 := z] == [y, z] && [[], [y, None]][1 := [y, z]] == HeapYZ();
  }

  ghost const CachedItems: seq<Option<seq<LThunk>>> := [Some([Item()]), None]

  ghost function Item(): LThunk { LSusp(Ctx([], 0, None), LLit(Num(0))) }

  lemma {:induction false} CachedYZ(fuel: nat)
    ensures CacheOvers(fuel, HeapYZ(), Ctx([], 1, None), LZGuarded, 2) == Run(HeapYZ(), LOk(CachedItems))
  {
    var h, c, lc := HeapYZ(), Ctx([], 1, None), LZGuarded;
    assert Elements(LConsts([Num(0)])).value == [Item()];
    assert CacheOvers(fuel, h, c, lc, 0) == Run(h, LOk([]));
    assert Exec(fuel, h, c, lc.specs[0].over) == Run(h, LOk(LConsts([Num(0)])));
    var none: seq<Option<seq<LThunk>>>, first := [], Some([Item()]);
    assert none + [first] == [first];
    assert CacheOvers(fuel, h, c, lc, 1) == Run(h, LOk([first]));
    assert [first] + [None] == [first, None];
  }

  lemma {:induction false} IterationYZ(fuel: nat)
    requires fuel > 0
    ensures ExecSpecs(fuel, HeapYZ(), Ctx([], 1, None), LZGuarded, CachedItems, 0).out
            == LOk([LSusp(Ctx([], 1, None), LLit(Bool(true)))])
  {
    var h, c, lc, cached := HeapYZ(), Ctx([], 1, None), LZGuarded, CachedItems;
    var y, z := LSusp(c, LLit(Num(1))), LSusp(c, LLit(Bool(true)));
    var s := lc.specs[0];
    assert PackCaptures(h, c, s.shape.captures).value == [z, y];
    var h1, c1 := h + [[Some(Item())]], Ctx([z, y], 2, None);
    assert NewFrame(h, 1)[2] == [None] && NewFrame(h, 1) == h + [[None]];
    assert [None][0 := Some(Item())] == [Some(Item())] && (h + [[None]])[2 := [Some(Item())]] == h1;
    assert EnterIteration(h, c, s, Item()) == Run(h1, LOk(c1));
    assert ExecSpecs(fuel, h1, c1, lc, cached, 2) == Run(h1, LOk([z]));
    assert ForceL(fuel, h1, z) == Run(h1, LOk(LTriv(Bool(true))));
    assert Exec(fuel, h1, c1, LSlot(SCapture(0))) == Run(h1, LOk(LTriv(Bool(true))));
    assert ExecSpecs(fuel, h1, c1, lc, cached, 1) == Run(h1, LOk([z]));
    assert [Item()][1..] == [];
    assert ExecIter(fuel, h1, c, lc, cached, 0, []) == Run(h1, LOk([]));
    assert ExecIter(fuel, h, c, lc, cached, 0, [Item()]) == Run(h1, LOk([z] + []));
    assert [z] + [] == [z];
    assert Exec(fuel, h, c, s.over) == Run(h, LOk(LConsts([Num(0)]))) && Elements(LConsts([Num(0)])).value == [Item()];
  }

  // ---------------------------------------------------------------- sources evaluated ahead of the loop

  /** `[1 for x in [] for y in error null]`: by name the second source is never reached. */
  const EagerSource: Expr := Comp(Lit(Num(1)), [For("x", Arr([])), For("y", Node(Error, [Lit(Null)]))])
  const EagerLowered: LExpr :=
    LComp(Shape([], 0), LLit(Num(1)),
          [LFor(Shape([], 1), 0, LArrConst([]), true), LFor(Shape([], 1), 0, LNode(Error, [LLit(Null)]), true)])

  /** Both sources mention no local, so both are evaluated ahead of the loop in the only lowering there is. */
  lemma EagerForced(le: LExpr)
    requires Compiled(EagerSource, le, [])
    ensures le == EagerLowered
  {
    hide Res, Ordered, ResSpecs, OrderedSpecs, OrderSpecs, Taken, Without;
    var sc, v0 := RootScope([]), RootView(0);
    assert Idents([]) == [] && sc == Scope(map[], 0);
    EagerFirst(le, sc, v0);
    var sc1, v1 := Bind1(sc, Id("x")), View([], 0, 1, false, false);
    EagerSecond(le, sc1, v1, v0);
    assert le.specs == [le.specs[0], le.specs[1]];
  }

  lemma EagerFirst(le: LExpr, sc: Scope, v0: View)
    requires sc == Scope(map[], 0) && v0 == RootView(0) && Res(EagerSource, le, sc, v0) && Ordered(EagerSource, le, sc, v0)
    ensures le.LComp? && |le.specs| == 2 && le.specs[0] == LFor(Shape([], 1), 0, LArrConst([]), true)
    ensures var sc1, v1 := Bind1(sc, Id("x")), View([], 0, 1, false, false);
            ResSpecs(EagerSource, le, 1, sc1, v1, v0, {} + {Id("x")}) && OrderedSpecs(EagerSource, le, 1, sc1, v1, v0)
  {
    hide FVSpecs, OrderSpecs, Taken, Without;
    var ls, none: set<Name> := le.specs[0], {};
    assert ResSpecs(EagerSource, le, 0, sc, v0, v0, none) && OrderedSpecs(EagerSource, le, 0, sc, v0, v0);
    assert Trivials([]) == [];
    LiteralsClosed([]);
    NoSlots(ls.shape, v0);
    assert EnterView(v0, ls.shape, 0) == View([], 0, 1, false, false);
  }

  lemma EagerSecond(le: LExpr, sc1: Scope, v1: View, v0: View)
    requires sc1 == Bind1(Scope(map[], 0), Id("x")) && v1 == View([], 0, 1, false, false) && v0 == RootView(0)
    requires le.LComp? && |le.specs| == 2
    requires ResSpecs(EagerSource, le, 1, sc1, v1, v0, {} + {Id("x")}) && OrderedSpecs(EagerSource, le, 1, sc1, v1, v0)
    ensures le.specs[1] == LFor(Shape([], 1), 0, LNode(Error, [LLit(Null)]), true) && le.vshape == Shape([], 0) && le.value == LLit(Num(1))
  {
    hide FVSpecs, IdOf;
    var ls, over, sc2 := le.specs[1], Node(Error, [Lit(Null)]), Bind1(sc1, Id("y"));
    EagerOrder();
    ErrorForced(ls.over, sc1, if ls.inv then v0 else v1);
    NoneTaken(ls.shape, v1, sc1, 1);
    var v2 := EnterView(v1, ls.shape, 1);
    assert ResUse(Lit(Num(1)), le.value, le.vshape, sc2, v2);
    NoSlots(le.vshape, v2);
  }

  lemma NoneTaken(sh: Shape, v: View, sc: Scope, first: nat)
    requires InOrder(sh, v, [], sc, first)
    ensures sh.captures == []
  {}

  lemma ErrorForced(le: LExpr, sc: Scope, v: View)
    requires Res(Node(Error, [Lit(Null)]), le, sc, v)
    ensures le == LNode(Error, [LLit(Null)])
    ensures FV(Node(Error, [Lit(Null)])) == {} && forall top :: !Own(Node(Error, [Lit(Null)]), top)
  {
    var kids := [Lit(Null)];
    assert Res(kids[0], le.kids[0], sc, v);
    assert le.kids == [le.kids[0]];
    ConstFree(kids);
    forall top ensures !OwnSeq(kids, top) { OwnTrivial(kids, top); }
  }

  lemma EagerOrder()
    ensures Without(OrderSpecs(EagerSource, 2), {Id("y")}) == []
  {
    assert OrderSpecs(EagerSource, 2) == [];
  }

  /** The lowering stops on a source that by-name evaluation never reaches. */
  lemma {:induction false} EagerSurprise(fuel: nat, le: LExpr)
    requires Compiled(EagerSource, le, [])
    ensures Eval(false, fuel, Root([], []), EagerSource) == Ok(VArr([]))
    ensures Exec(fuel, RootHeap([]), RootCtx, le).out == Hoisted
  {
    hide Res, Ordered, BindAll, Exec, Eval, Compiled;
    EagerForced(le);
    EagerByName(fuel);
    EagerStops(fuel);
  }

  lemma EagerWF()
    ensures WF(EagerSource, NameSet(Idents([])))
  {
    var dom := NameSet(Idents([]));
    assert WF(Node(Error, [Lit(Null)]), dom + {Id("x")});
    assert WFSpecs(EagerSource, 2, dom + {Id("x")} + {Id("y")}) && WFSpecs(EagerSource, 1, dom + {Id("x")});
  }

  /** The analyser accepts the program, and what it hands on stops where the program means `[]`. */
  method AnalyzeEager(ghost fuel: nat) returns (le: LExpr)
    ensures Compiled(EagerSource, le, []) && le == EagerLowered
    ensures Eval(false, fuel, Root([], []), EagerSource) == Ok(VArr([]))
    ensures Exec(fuel, RootHeap([]), RootCtx, le).out == Hoisted
  {
    hide Exec, Eval, Res, Ordered, Compiled, Safe, SafeProgram, Grammatical, WF;
    var lir, shape := AnalyzeRoot(EagerSource, []);
    EagerWF();
    le := lir.value;
    EagerForced(le);
    EagerSurprise(fuel, le);
  }

  lemma {:induction false} EagerByName(fuel: nat)
    ensures Eval(false, fuel, Root([], []), EagerSource) == Ok(VArr([]))
  {
    var env, c := Root([], []), EagerSource;
    assert EvalIter(false, fuel, env, c, 0, []) == Ok([]) && Suspended(env, []) == [];
    assert Eval(false, fuel, env, Arr([])) == Ok(VArr([]));
    assert EvalSpecs(false, fuel, env, c, 0) == Ok([]);
  }

  lemma {:induction false} EagerStops(fuel: nat)
    ensures Exec(fuel, RootHeap([]), RootCtx, EagerLowered).out == Hoisted
  {
    var h, lc := RootHeap([]), EagerLowered;
    assert Elements(LConsts([])).value == [];
    assert CacheOvers(fuel, h, RootCtx, lc, 0) == Run(h, LOk([]));
    assert Exec(fuel, h, RootCtx, lc.specs[0].over) == Run(h, LOk(LConsts([])));
    var none: seq<Option<seq<LThunk>>> := [];
    assert none + [Some([])] == [Some([])];
    assert CacheOvers(fuel, h, RootCtx, lc, 1) == Run(h, LOk([Some([])]));
    assert ExecNode(fuel, h, RootCtx, lc.specs[1].over) == Run(h, LFails);
    assert Exec(fuel, h, RootCtx, lc.specs[1].over) == Run(h, LFails);
    assert CacheOvers(fuel, h, RootCtx, lc, 2).out == Hoisted;
  }
}
