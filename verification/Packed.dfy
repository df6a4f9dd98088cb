/** The machine that runs lowered code: capture packs, frames whose cells are filled one by one
    during set-up, and comprehensions that evaluate loop-invariant sources up front. Reading a cell
    that is not filled, filling one twice, or using a slot that is out of range is a `Panic`. */
module Packed {
  import opened Options
  import opened Syntax
  import B = ByName

  datatype Ctx = Ctx(caps: seq<LThunk>, frame: nat, sup: Option<SupThis>)

  datatype SupThis = SupThis(obj: LObjVal, level: nat)

  datatype LThunk = LSusp(ctx: Ctx, e: LExpr) | LWhole(obj: LObjVal)

  datatype LObjVal = LObjVal(layers: seq<LLayer>)

  /** An object body whose members mention the object is packed and gets a fresh frame per access;
      the others get one frame when the object is built. With `pin`, the members of a packed body see
      another object than the one the layer is in. */
  datatype LLayer = Late(caps: seq<LThunk>, def: LObjBody, pin: Option<SupThis>) | Early(ctx: Ctx, def: LObjBody)

  datatype LVal =
    | LTriv(t: Trivial)
    | LClosure(caps: seq<LThunk>, sup: Option<SupThis>, fn: LExpr)
    | LId
    | LArrV(items: seq<LThunk>)
    | LConsts(consts: seq<Trivial>)
    | LObjV(obj: LObjVal)

  /** Frames are allocated in order and stay where they are; a cell is filled at most once. */
  type Heap = seq<seq<Option<LThunk>>>

  /** `Hoisted` marks the failure, for whatever reason, of a loop-invariant source that was evaluated
      ahead of its turn. */
  datatype LOutcome<+V> = LOk(v: V) | LFails | LOutOfFuel | Hoisted | Panic

  datatype Run<+V> = Run(h: Heap, out: LOutcome<V>)

  // ---------------------------------------------------------------- contexts

  function ReadSlot(h: Heap, ctx: Ctx, s: Slot): Option<LThunk> {
    match s
    case SCapture(i) => if i < |ctx.caps| then Some(ctx.caps[i]) else None
    case SLocal(i) => if ctx.frame < |h| && i < |h[ctx.frame]| then h[ctx.frame][i] else None
  }

  function PackCaptures(h: Heap, ctx: Ctx, srcs: seq<Slot>): (r: Option<seq<LThunk>>)
    ensures r.Some? <==> forall i :: 0 <= i < |srcs| ==> ReadSlot(h, ctx, srcs[i]).Some?
    ensures r.Some? ==> |r.value| == |srcs|
    ensures r.Some? ==> forall i :: 0 <= i < |srcs| ==> ReadSlot(h, ctx, srcs[i]) == Some(r.value[i])
  {
    if forall i :: 0 <= i < |srcs| ==> ReadSlot(h, ctx, srcs[i]).Some?
    then Some(seq(|srcs|, i requires 0 <= i < |srcs| && ReadSlot(h, ctx, srcs[i]).Some? => ReadSlot(h, ctx, srcs[i]).value))
    else None
  }

  /** A closure without locals shares the frame of its parent, and its whole context when it
      captures nothing. */
  function EnterUsing(h: Heap, ctx: Ctx, sh: Shape): Option<Ctx> {
    if sh.captures == [] then Some(ctx)
    else match PackCaptures(h, ctx, sh.captures)
      case None => None
      case Some(caps) => Some(Ctx(caps, ctx.frame, ctx.sup))
  }

  function NewFrame(h: Heap, n: nat): Heap {
    h + [seq(n, i => None)]
  }

  function SetCell(h: Heap, a: nat, slot: nat, t: LThunk): Option<Heap> {
    if a < |h| && slot < |h[a]| && h[a][slot].None? then Some(h[a := h[a][slot := Some(t)]]) else None
  }

  /** Fills the cells of a letrec group: each value is packed while later cells are still empty. */
  function FillBinds(h: Heap, ctx: Ctx, lbs: seq<LBind>): Option<Heap>
    decreases |lbs|
  {
    if lbs == [] then Some(h)
    else match FillBinds(h, ctx, lbs[..|lbs| - 1])
      case None => None
      case Some(h1) =>
        var b := lbs[|lbs| - 1];
        match EnterUsing(h1, ctx, b.shape)
        case None => None
        case Some(c) => SetCell(h1, ctx.frame, b.slot, LSusp(c, b.value))
  }

  function FillArgs(h: Heap, a: nat, params: seq<LParam>, args: seq<LThunk>): Option<Heap>
    requires |args| <= |params|
    decreases |args|
  {
    if args == [] then Some(h)
    else match FillArgs(h, a, params, args[..|args| - 1])
      case None => None
      case Some(h1) => SetCell(h1, a, params[|args| - 1].slot, args[|args| - 1])
  }

  predicate LCanCall(params: seq<LParam>, args: nat) {
    args <= |params| && forall i :: args <= i < |params| ==> params[i].default.Some?
  }

  function Defaults(params: seq<LParam>, from: nat): (r: seq<LBind>)
    requires LCanCall(params, from)
    ensures |r| == |params| - from
    ensures forall i :: 0 <= i < |r| ==> r[i] == params[from + i].default.value
  {
    seq(|params| - from, i requires 0 <= i < |params| - from => params[from + i].default.value)
  }

  /** An argument that is a bare slot is passed as the thunk the slot holds. */
  function MkLThunk(h: Heap, ctx: Ctx, e: LExpr): Option<LThunk> {
    if e.LSlot? then ReadSlot(h, ctx, e.s) else Some(LSusp(ctx, e))
  }

  function MkLThunks(h: Heap, ctx: Ctx, es: seq<LExpr>): (r: Option<seq<LThunk>>)
    ensures r.Some? <==> forall i :: 0 <= i < |es| ==> MkLThunk(h, ctx, es[i]).Some?
    ensures r.Some? ==> |r.value| == |es|
    ensures r.Some? ==> forall i :: 0 <= i < |es| ==> MkLThunk(h, ctx, es[i]) == Some(r.value[i])
  {
    if forall i :: 0 <= i < |es| ==> MkLThunk(h, ctx, es[i]).Some?
    then Some(seq(|es|, i requires 0 <= i < |es| && MkLThunk(h, ctx, es[i]).Some? => MkLThunk(h, ctx, es[i]).value))
    else None
  }

  function LSuspended(ctx: Ctx, es: seq<LExpr>): (r: seq<LThunk>)
    ensures |r| == |es| && forall i :: 0 <= i < |es| ==> r[i] == LSusp(ctx, es[i])
  {
    seq(|es|, i requires 0 <= i < |es| => LSusp(ctx, es[i]))
  }

  // ---------------------------------------------------------------- objects

  function LFieldIndex(fs: seq<LField>, f: string): (r: Option<nat>)
    ensures r.Some? ==> r.value < |fs| && fs[r.value].name == f
  {
    if fs == [] then None
    else if fs[|fs| - 1].name == f then Some(|fs| - 1)
    else LFieldIndex(fs[..|fs| - 1], f)
  }

  function LFindLayer(layers: seq<LLayer>, top: nat, f: string): (r: Option<nat>)
    requires top <= |layers|
    ensures r.Some? ==> r.value < top && LFieldIndex(layers[r.value].def.fields, f).Some?
  {
    if top == 0 then None
    else if LFieldIndex(layers[top - 1].def.fields, f).Some? then Some(top - 1)
    else LFindLayer(layers, top - 1, f)
  }

  predicate LDistinctFields(fs: seq<LField>) {
    forall i, j :: 0 <= i < j < |fs| ==> fs[i].name != fs[j].name
  }

  /** Builds one layer of an object in context `ctx`. */
  function BuildLayer(h: Heap, ctx: Ctx, def: LObjBody): Run<LLayer> {
    match PackCaptures(h, ctx, def.shape.captures)
    case None => Run(h, Panic)
    case Some(caps) =>
      if def.late then Run(h, LOk(Late(caps, def, None)))
      else
        var c := Ctx(caps, |h|, ctx.sup);
        match FillBinds(NewFrame(h, def.shape.n), c, def.locals)
        case None => Run(h, Panic)
        case Some(h1) => Run(h1, LOk(Early(c, def)))
  }

  /** The object that the members of layer `l` see, if they look. */
  function LOwner(o: LObjVal, l: nat): SupThis
    requires l < |o.layers|
  {
    if o.layers[l].Late? && o.layers[l].pin.Some? then o.layers[l].pin.value else SupThis(o, l)
  }

  /** The layers below as an object of their own, whose members go on seeing the one they came from. */
  function LBelow(o: LObjVal, top: nat): (r: LObjVal)
    requires top <= |o.layers|
    ensures |r.layers| == top
    ensures forall i :: 0 <= i < top ==>
              r.layers[i] == if o.layers[i].Late? then o.layers[i].(pin := Some(LOwner(o, i))) else o.layers[i]
  {
    LObjVal(seq(top, i requires 0 <= i < top =>
                     if o.layers[i].Late? then o.layers[i].(pin := Some(LOwner(o, i))) else o.layers[i]))
  }

  function LStandalone(s: SupThis): LOutcome<LVal> {
    if s.level == 0 || s.level > |s.obj.layers| then LFails else LOk(LObjV(LBelow(s.obj, s.level)))
  }

  /** Context for a member of layer `l` of `o`, set up afresh when the layer is late bound. */
  function MemberCtx(h: Heap, o: LObjVal, l: nat): Run<Ctx>
    requires l < |o.layers|
  {
    match o.layers[l]
    case Early(ctx, _) => Run(h, LOk(ctx))
    case Late(caps, def, _) =>
      var own := LOwner(o, l);
      var c := Ctx(caps, |h|, Some(own));
      match SetCell(NewFrame(h, def.shape.n), |h|, 0, LWhole(own.obj))
      case None => Run(h, Panic)
      case Some(h1) =>
        match FillBinds(h1, c, def.locals)
        case None => Run(h, Panic)
        case Some(h2) => Run(h2, LOk(c))
  }

  // ---------------------------------------------------------------- evaluation

  function Exec(fuel: nat, h: Heap, ctx: Ctx, e: LExpr): Run<LVal>
    decreases fuel, 1, e, 1, 0, 0
  {
    match e
    case LBad => Run(h, Panic)
    case LLit(t) => Run(h, LOk(LTriv(t)))
    case LSlot(s) => (match ReadSlot(h, ctx, s) case None => Run(h, Panic) case Some(t) => ForceL(fuel, h, t))
    case LSuper => (match ctx.sup case None => Run(h, LFails) case Some(s) => Run(h, LStandalone(s)))
    case LSuperField(f) =>
      (match ctx.sup
       case None => Run(h, LFails)
       case Some(s) => GetFieldL(fuel, h, s.obj, s.level, f))
    case LNode(_, _) => ExecNode(fuel, h, ctx, e)
    case LArrConst(cs) => Run(h, LOk(LConsts(cs)))
    case LArr(shape, items) =>
      (match EnterUsing(h, ctx, shape)
       case None => Run(h, Panic)
       case Some(c) => Run(h, LOk(LArrV(LSuspended(c, items)))))
    case LLocal(shape, binds, body) =>
      (match PackCaptures(h, ctx, shape.captures)
       case None => Run(h, Panic)
       case Some(caps) =>
         var c := Ctx(caps, |h|, ctx.sup);
         match FillBinds(NewFrame(h, shape.n), c, binds)
         case None => Run(h, Panic)
         case Some(h1) => Exec(fuel, h1, c, body))
    case LFn(params, shape, body) =>
      (match PackCaptures(h, ctx, shape.captures)
       case None => Run(h, Panic)
       case Some(caps) => Run(h, LOk(LClosure(caps, ctx.sup, e))))
    case LIdentity => Run(h, LOk(LId))
    case LObj(def) =>
      if !LDistinctFields(def.fields) then Run(h, LFails)
      else (match BuildLayer(h, ctx, def)
            case Run(h1, LOk(l)) => Run(h1, LOk(LObjV(LObjVal([l]))))
            case Run(h1, _) => Run(h1, Panic))
    case LExtend(base, def) =>
      (match Exec(fuel, h, ctx, base)
       case Run(h1, LOk(LObjV(o))) =>
         if !LDistinctFields(def.fields) then Run(h1, LFails)
         else (match BuildLayer(h1, ctx, def)
               case Run(h2, LOk(l)) => Run(h2, LOk(LObjV(LObjVal(o.layers + [l]))))
               case Run(h2, _) => Run(h2, Panic))
       case Run(h1, LOk(_)) => Run(h1, LFails)
       case x => x)
    case LComp(_, _, specs) =>
      match CacheOvers(fuel, h, ctx, e, |specs|)
      case Run(h1, LOk(cached)) =>
        (match ExecSpecs(fuel, h1, ctx, e, cached, 0)
         case Run(h2, LOk(ts)) => Run(h2, LOk(LArrV(ts)))
         case Run(h2, LFails) => Run(h2, LFails)
         case Run(h2, LOutOfFuel) => Run(h2, LOutOfFuel)
         case Run(h2, Hoisted) => Run(h2, Hoisted)
         case Run(h2, Panic) => Run(h2, Panic))
      case Run(h1, LFails) => Run(h1, LFails)
      case Run(h1, LOutOfFuel) => Run(h1, LOutOfFuel)
      case Run(h1, Hoisted) => Run(h1, Hoisted)
      case Run(h1, Panic) => Run(h1, Panic)
  }

  function ExecNode(fuel: nat, h: Heap, ctx: Ctx, e: LExpr): Run<LVal>
    requires e.LNode?
    decreases fuel, 1, e, 0, 0, 0
  {
    if e.kids == [] then Run(h, LFails) else
    match Exec(fuel, h, ctx, e.kids[0])
    case Run(h1, LOk(v)) =>
      (match e.op
       case Error => Run(h1, LFails)
       case If =>
         if v.LTriv? && v.t.Bool? && 2 <= |e.kids| then
           if v.t.b then Exec(fuel, h1, ctx, e.kids[1])
           else if 3 <= |e.kids| then Exec(fuel, h1, ctx, e.kids[2])
           else Run(h1, LOk(LTriv(Null)))
         else Run(h1, LFails)
       case And =>
         if |e.kids| < 2 then Run(h1, LFails)
         else if v == LTriv(Bool(false)) then Run(h1, LOk(v))
         else (match Exec(fuel, h1, ctx, e.kids[1])
               case Run(h2, LOk(w)) =>
                 Run(h2, if v.LTriv? && v.t.Bool? && w.LTriv? && w.t.Bool? then LOk(w) else LFails)
               case x => x)
       case Bin(op) =>
         if |e.kids| < 2 then Run(h1, LFails)
         else (match Exec(fuel, h1, ctx, e.kids[1])
               case Run(h2, LOk(w)) => Run(h2, BinL(op, v, w))
               case x => x)
       case Index =>
         if |e.kids| < 2 then Run(h1, LFails)
         else (match Exec(fuel, h1, ctx, e.kids[1])
               case Run(h2, LOk(w)) => IndexL(fuel, h2, v, w)
               case x => x)
       case Apply =>
         match MkLThunks(h1, ctx, e.kids[1..])
         case None => Run(h1, Panic)
         case Some(args) => CallL(fuel, h1, v, args))
    case x => x
  }

  function BinL(op: BinOp, v: LVal, w: LVal): LOutcome<LVal> {
    if v.LTriv? && w.LTriv? && B.Apply2(op, v.t, w.t).Some? then LOk(LTriv(B.Apply2(op, v.t, w.t).value)) else LFails
  }

  function IndexL(fuel: nat, h: Heap, v: LVal, k: LVal): Run<LVal>
    decreases fuel, 0, LBad, 2, 0, 0
  {
    if v.LObjV? && k.LTriv? && k.t.Str? then GetFieldL(fuel, h, v.obj, |v.obj.layers|, k.t.s)
    else if v.LArrV? && k.LTriv? && k.t.Num? && 0 <= k.t.n < |v.items| then ForceL(fuel, h, v.items[k.t.n])
    else if v.LConsts? && k.LTriv? && k.t.Num? && 0 <= k.t.n < |v.consts| then
      if fuel == 0 then Run(h, LOutOfFuel) else Run(h, LOk(LTriv(v.consts[k.t.n])))
    else Run(h, LFails)
  }

  function ForceL(fuel: nat, h: Heap, t: LThunk): Run<LVal>
    decreases fuel, 0, LBad, 1, 0, 0
  {
    match t
    case LWhole(o) => Run(h, LOk(LObjV(o)))
    case LSusp(ctx, e) => if fuel == 0 then Run(h, LOutOfFuel) else Exec(fuel - 1, h, ctx, e)
  }

  function GetFieldL(fuel: nat, h: Heap, o: LObjVal, top: nat, f: string): Run<LVal>
    decreases fuel, 0, LBad, 1, 0, 0
  {
    if top > |o.layers| || LFindLayer(o.layers, top, f).None? then Run(h, LFails)
    else if fuel == 0 then Run(h, LOutOfFuel)
    else
      var l := LFindLayer(o.layers, top, f).value;
      var field := o.layers[l].def.fields[LFieldIndex(o.layers[l].def.fields, f).value];
      match MemberCtx(h, o, l)
      case Run(h1, LOk(a)) =>
        (match EnterUsing(h1, a, field.shape)
         case None => Run(h1, Panic)
         case Some(c) => Exec(fuel - 1, h1, c, field.value))
      case Run(h1, _) => Run(h1, Panic)
  }

  function CallL(fuel: nat, h: Heap, v: LVal, args: seq<LThunk>): Run<LVal>
    decreases fuel, 0, LBad, 2, 0, 0
  {
    if v.LId? then
      if |args| != 1 then Run(h, LFails)
      else if fuel == 0 then Run(h, LOutOfFuel)
      else ForceL(fuel - 1, h, args[0])
    else if !v.LClosure? || !v.fn.LFn? || !LCanCall(v.fn.params, |args|) then Run(h, LFails)
    else if fuel == 0 then Run(h, LOutOfFuel)
    else
      var c := Ctx(v.caps, |h|, v.sup);
      match FillArgs(NewFrame(h, v.fn.shape.n), |h|, v.fn.params, args)
      case None => Run(h, Panic)
      case Some(h1) =>
        match FillBinds(h1, c, Defaults(v.fn.params, |args|))
        case None => Run(h, Panic)
        case Some(h2) => Exec(fuel - 1, h2, c, v.fn.body)
  }

  // ---------------------------------------------------------------- comprehensions

  function Elements(v: LVal): Option<seq<LThunk>> {
    match v
    case LArrV(items) => Some(items)
    case LConsts(cs) => Some(seq(|cs|, i requires 0 <= i < |cs| => LSusp(Ctx([], 0, None), LLit(cs[i]))))
    case _ => None
  }

  /** Values of the loop-invariant sources among the first `k` specifications, evaluated in the
      context outside the comprehension. */
  function CacheOvers(fuel: nat, h: Heap, ctx: Ctx, lc: LExpr, k: nat): (r: Run<seq<Option<seq<LThunk>>>>)
    requires lc.LComp? && k <= |lc.specs|
    ensures r.out.LOk? ==> |r.out.v| == k
    decreases fuel, 1, lc, 0, k, 0
  {
    if k == 0 then Run(h, LOk([]))
    else match CacheOvers(fuel, h, ctx, lc, k - 1)
      case Run(h1, LOk(cached)) =>
        var s := lc.specs[k - 1];
        if s.LFor? && s.inv then
          match Exec(fuel, h1, ctx, s.over)
          case Run(h2, LOk(v)) =>
            (match Elements(v)
             case None => Run(h2, if k == 1 then LFails else Hoisted)
             case Some(items) => Run(h2, LOk(cached + [Some(items)])))
          case Run(h2, LFails) => Run(h2, if k == 1 then LFails else Hoisted)
          case Run(h2, LOutOfFuel) => Run(h2, if k == 1 then LOutOfFuel else Hoisted)
          case Run(h2, Hoisted) => Run(h2, Hoisted)
          case Run(h2, Panic) => Run(h2, Panic)
        else Run(h1, LOk(cached + [None]))
      case x => x
  }

  /** The collected element: a bare slot is read in the innermost iteration context itself, although
      it was resolved inside the closure of shape `vshape`. */
  function Collect(h: Heap, ctx: Ctx, lc: LExpr): Option<LThunk>
    requires lc.LComp?
  {
    if lc.value.LSlot? then ReadSlot(h, ctx, lc.value.s)
    else match EnterUsing(h, ctx, lc.vshape)
      case None => None
      case Some(c) => Some(LSusp(c, lc.value))
  }

  function ExecSpecs(fuel: nat, h: Heap, ctx: Ctx, lc: LExpr, cached: seq<Option<seq<LThunk>>>, k: nat)
    : Run<seq<LThunk>>
    requires lc.LComp? && |cached| == |lc.specs| && k <= |lc.specs|
    decreases fuel, 1, lc, 0, 2 * (|lc.specs| - k) + 1, 0
  {
    if k == |lc.specs| then
      match Collect(h, ctx, lc)
      case None => Run(h, Panic)
      case Some(t) => Run(h, LOk([t]))
    else match lc.specs[k]
      case LCond(cond) =>
        (match Exec(fuel, h, ctx, cond)
         case Run(h1, LOk(v)) =>
           if !(v.LTriv? && v.t.Bool?) then Run(h1, LFails)
           else if v.t.b then ExecSpecs(fuel, h1, ctx, lc, cached, k + 1)
           else Run(h1, LOk([]))
         case Run(h1, LFails) => Run(h1, LFails)
         case Run(h1, LOutOfFuel) => Run(h1, LOutOfFuel)
         case Run(h1, Hoisted) => Run(h1, Hoisted)
         case Run(h1, Panic) => Run(h1, Panic))
      case LFor(_, _, over, _) =>
        if cached[k].Some? then ExecIter(fuel, h, ctx, lc, cached, k, cached[k].value)
        else
          match Exec(fuel, h, ctx, over)
          case Run(h1, LOk(v)) =>
            (match Elements(v)
             case None => Run(h1, LFails)
             case Some(items) => ExecIter(fuel, h1, ctx, lc, cached, k, items))
          case Run(h1, LFails) => Run(h1, LFails)
          case Run(h1, LOutOfFuel) => Run(h1, LOutOfFuel)
          case Run(h1, Hoisted) => Run(h1, Hoisted)
          case Run(h1, Panic) => Run(h1, Panic)
  }

  function ExecIter(fuel: nat, h: Heap, ctx: Ctx, lc: LExpr, cached: seq<Option<seq<LThunk>>>, k: nat, items: seq<LThunk>)
    : Run<seq<LThunk>>
    requires lc.LComp? && |cached| == |lc.specs| && k < |lc.specs| && lc.specs[k].LFor?
    decreases fuel, 1, lc, 0, 2 * (|lc.specs| - k), |items|
  {
    if items == [] then Run(h, LOk([]))
    else
      match EnterIteration(h, ctx, lc.specs[k], items[0])
      case Run(h1, LOk(c)) =>
        (match ExecSpecs(fuel, h1, c, lc, cached, k + 1)
         case Run(h2, LOk(ts)) =>
           (match ExecIter(fuel, h2, ctx, lc, cached, k, items[1..])
            case Run(h3, LOk(us)) => Run(h3, LOk(ts + us))
            case x => x)
         case x => x)
      case Run(h1, _) => Run(h1, Panic)
  }

  /** Fresh frame for one iteration, with the element in the variable's cell. */
  function EnterIteration(h: Heap, ctx: Ctx, s: LSpec, item: LThunk): Run<Ctx>
    requires s.LFor?
  {
    match PackCaptures(h, ctx, s.shape.captures)
    case None => Run(h, Panic)
    case Some(caps) =>
      match SetCell(NewFrame(h, s.shape.n), |h|, s.slot, item)
      case None => Run(h, Panic)
      case Some(h1) => Run(h1, LOk(Ctx(caps, |h|, ctx.sup)))
  }
}
