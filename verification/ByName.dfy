/** The reference semantics: a lazy evaluator that looks names up in environments, innermost binder
    first. Nothing is memoised and nothing is resolved ahead of time. `fuel` bounds the depth of
    nested calls, field accesses and forced thunks; running out is an outcome of its own. */
module ByName {
  import opened Options
  import opened Syntax
  import opened Resolution

  datatype Env =
    | Root(names: seq<Name>, vals: seq<Thunk>)
    | Rec(binds: seq<Bind>, up: Env)
    | Call(params: seq<Param>, args: seq<Thunk>, up: Env)
    | Iter(x: string, item: Thunk, up: Env)
    | InObj(obj: ObjVal, level: nat, def: ObjBody, up: Env)

  datatype Thunk = Susp(env: Env, e: Expr) | Whole(obj: ObjVal)

  /** An object is the stack of object bodies it was extended with, innermost `super` first. */
  datatype ObjVal = ObjVal(layers: seq<Layer>)

  /** With `pin`, members see another object than the one the layer is in. */
  datatype Layer = Layer(env: Env, def: ObjBody, pin: Option<SuperOf>)

  /** An object, seen from one of its layers. */
  datatype SuperOf = SuperOf(obj: ObjVal, level: nat)

  datatype Val =
    | VTriv(t: Trivial)
    | VClosure(params: seq<Param>, body: Expr, env: Env)
    | VArr(items: seq<Thunk>)
    | VObj(obj: ObjVal)

  datatype Outcome<+V> = Ok(v: V) | Fails | OutOfFuel

  function Lookup(env: Env, n: Name): Option<Thunk> {
    match env
    case Root(names, vals) =>
      var i := LastIndex(names, n);
      if i.Some? && i.value < |vals| then Some(vals[i.value]) else None
    case Rec(binds, up) =>
      var i := LastIndex(Names(binds), n);
      if i.Some? then Some(Susp(env, binds[i.value].value)) else Lookup(up, n)
    case Call(params, args, up) =>
      var i := LastIndex(ParamNames(params), n);
      if i.None? then Lookup(up, n)
      else if i.value < |args| then Some(args[i.value])
      else if params[i.value].default.Some? then Some(Susp(env, params[i.value].default.value))
      else None
    case Iter(x, item, up) => if n == Id(x) then Some(item) else Lookup(up, n)
    case InObj(obj, _, def, up) =>
      var i := LastIndex(Names(def.locals), n);
      if i.Some? then Some(Susp(env, def.locals[i.value].value))
      else if n == Super then None
      else if n == Self then Some(Whole(obj))
      else if n == Dollar && Lookup(up, Dollar).None? then Some(Whole(obj))
      else Lookup(up, n)
  }

  function Enclosing(env: Env): Option<SuperOf> {
    match env
    case Root(_, _) => None
    case InObj(obj, level, _, _) => Some(SuperOf(obj, level))
    case Rec(_, up) => Enclosing(up)
    case Call(_, _, up) => Enclosing(up)
    case Iter(_, _, up) => Enclosing(up)
  }

  /** The object that the members of layer `l` see. */
  function Owner(o: ObjVal, l: nat): SuperOf
    requires l < |o.layers|
  {
    if o.layers[l].pin.Some? then o.layers[l].pin.value else SuperOf(o, l)
  }

  /** Where the members of layer `l` are evaluated. */
  function MemberEnv(o: ObjVal, l: nat): Env
    requires l < |o.layers|
  {
    InObj(Owner(o, l).obj, Owner(o, l).level, o.layers[l].def, o.layers[l].env)
  }

  /** `super` as a value: the layers below, whose members go on seeing the object they came from. */
  function Below(o: ObjVal, top: nat): (r: ObjVal)
    requires top <= |o.layers|
    ensures |r.layers| == top && forall i :: 0 <= i < top ==> r.layers[i] == o.layers[i].(pin := Some(Owner(o, i)))
  {
    ObjVal(seq(top, i requires 0 <= i < top => o.layers[i].(pin := Some(Owner(o, i)))))
  }

  function Standalone(s: SuperOf): Outcome<Val> {
    if s.level == 0 || s.level > |s.obj.layers| then Fails else Ok(VObj(Below(s.obj, s.level)))
  }

  /** An argument or a collected element that is just a name is that name's own thunk. */
  function MkThunk(env: Env, e: Expr): Thunk {
    match e
    case Ref(n) => if n == Super || Lookup(env, n).None? then Susp(env, e) else Lookup(env, n).value
    case Local(binds, body) => if binds == [] then MkThunk(env, body) else Susp(env, e)
    case _ => Susp(env, e)
  }

  function MkThunks(env: Env, es: seq<Expr>): (r: seq<Thunk>)
    ensures |r| == |es| && forall i :: 0 <= i < |es| ==> r[i] == MkThunk(env, es[i])
  {
    seq(|es|, i requires 0 <= i < |es| => MkThunk(env, es[i]))
  }

  function Suspended(env: Env, es: seq<Expr>): (r: seq<Thunk>)
    ensures |r| == |es| && forall i :: 0 <= i < |es| ==> r[i] == Susp(env, es[i])
  {
    seq(|es|, i requires 0 <= i < |es| => Susp(env, es[i]))
  }

  /** Environment without the iteration variables on top that `e` does not mention. Only lean
      evaluation makes use of it: a comprehension's sources then run in the trimmed environment. */
  ghost function Trim(env: Env, e: Expr): Env {
    if env.Iter? && Id(env.x) !in FV(e) then Trim(env.up, e) else env
  }

  function FieldIndex(fs: seq<Bind>, f: string): (r: Option<nat>)
    ensures r.Some? ==> r.value < |fs| && fs[r.value].name == f
  {
    if fs == [] then None
    else if fs[|fs| - 1].name == f then Some(|fs| - 1)
    else FieldIndex(fs[..|fs| - 1], f)
  }

  /** Topmost of the lowest `top` layers that defines `f`. */
  function FindLayer(layers: seq<Layer>, top: nat, f: string): (r: Option<nat>)
    requires top <= |layers|
    ensures r.Some? ==> r.value < top && FieldIndex(layers[r.value].def.fields, f).Some?
  {
    if top == 0 then None
    else if FieldIndex(layers[top - 1].def.fields, f).Some? then Some(top - 1)
    else FindLayer(layers, top - 1, f)
  }

  predicate DistinctFields(fs: seq<Bind>) {
    forall i, j :: 0 <= i < j < |fs| ==> fs[i].name != fs[j].name
  }

  predicate CanCall(params: seq<Param>, args: nat) {
    args <= |params| && forall i :: args <= i < |params| ==> params[i].default.Some?
  }

  /** Binary operators on literals, and comparison by order on numbers and strings. */
  function Apply2(op: BinOp, a: Trivial, b: Trivial): Option<Trivial> {
    match (op, a, b)
    case (Add, Num(x), Num(y)) => Some(Num(x + y))
    case (Add, Str(x), Str(y)) => Some(Str(x + y))
    case (Eq, _, _) => Some(Bool(a == b))
    case (Less, Num(x), Num(y)) => Some(Bool(x < y))
    case _ => None
  }

  // ---------------------------------------------------------------- evaluation

  ghost function Eval(lean: bool, fuel: nat, env: Env, e: Expr): Outcome<Val>
    decreases fuel, 1, e, 1, 0, 0
  {
    match e
    case Lit(t) => Ok(VTriv(t))
    case Ref(n) =>
      if n == Super then (match Enclosing(env) case None => Fails case Some(s) => Standalone(s))
      else (match Lookup(env, n) case None => Fails case Some(t) => Force(lean, fuel, t))
    case SuperField(f) =>
      (match Enclosing(env)
       case None => Fails
       case Some(s) => GetField(lean, fuel, s.obj, s.level, f))
    case Node(_, _) => EvalNode(lean, fuel, env, e)
    case Arr(items) => Ok(VArr(Suspended(env, items)))
    case Local(binds, body) => Eval(lean, fuel, if binds == [] then env else Rec(binds, env), body)
    case Fn(params, body) => Ok(VClosure(params, body, env))
    case Obj(def) => if DistinctFields(def.fields) then Ok(VObj(ObjVal([Layer(env, def, None)]))) else Fails
    case Extend(base, def) =>
      (match Eval(lean, fuel, env, base)
       case Ok(VObj(o)) =>
         if DistinctFields(def.fields) then Ok(VObj(ObjVal(o.layers + [Layer(env, def, None)]))) else Fails
       case Ok(_) => Fails
       case x => x)
    case Comp(_, _) => (match EvalSpecs(lean, fuel, env, e, 0) case Ok(ts) => Ok(VArr(ts)) case Fails => Fails case OutOfFuel => OutOfFuel)
  }

  ghost function EvalNode(lean: bool, fuel: nat, env: Env, e: Expr): Outcome<Val>
    requires e.Node?
    decreases fuel, 1, e, 0, 0, 0
  {
    if e.kids == [] then Fails else
    match Eval(lean, fuel, env, e.kids[0])
    case Fails => Fails
    case OutOfFuel => OutOfFuel
    case Ok(v) =>
      match e.op
      case Error => Fails
      case If =>
        if v.VTriv? && v.t.Bool? && 2 <= |e.kids| then
          if v.t.b then Eval(lean, fuel, env, e.kids[1])
          else if 3 <= |e.kids| then Eval(lean, fuel, env, e.kids[2])
          else Ok(VTriv(Null))
        else Fails
      case And =>
        if |e.kids| < 2 then Fails
        else if v == VTriv(Bool(false)) then Ok(v)
        else (match Eval(lean, fuel, env, e.kids[1])
              case Ok(w) =>
                if v.VTriv? && v.t.Bool? && w.VTriv? && w.t.Bool? then Ok(w) else Fails
              case x => x)
      case Bin(op) =>
        if |e.kids| < 2 then Fails
        else (match Eval(lean, fuel, env, e.kids[1])
              case Ok(w) => BinVal(op, v, w)
              case x => x)
      case Index =>
        if |e.kids| < 2 then Fails
        else (match Eval(lean, fuel, env, e.kids[1])
              case Ok(w) => IndexVal(lean, fuel, v, w)
              case x => x)
      case Apply => CallVal(lean, fuel, v, MkThunks(env, e.kids[1..]))
  }

  function BinVal(op: BinOp, v: Val, w: Val): Outcome<Val> {
    if v.VTriv? && w.VTriv? && Apply2(op, v.t, w.t).Some? then Ok(VTriv(Apply2(op, v.t, w.t).value)) else Fails
  }

  ghost function IndexVal(lean: bool, fuel: nat, v: Val, k: Val): Outcome<Val>
    decreases fuel, 0, Lit(Null), 2, 0, 0
  {
    if v.VObj? && k.VTriv? && k.t.Str? then GetField(lean, fuel, v.obj, |v.obj.layers|, k.t.s)
    else if v.VArr? && k.VTriv? && k.t.Num? && 0 <= k.t.n < |v.items| then Force(lean, fuel, v.items[k.t.n])
    else Fails
  }

  ghost function Force(lean: bool, fuel: nat, t: Thunk): Outcome<Val>
    decreases fuel, 0, Lit(Null), 1, 0, 0
  {
    match t
    case Whole(o) => Ok(VObj(o))
    case Susp(env, e) => if fuel == 0 then OutOfFuel else Eval(lean, fuel - 1, env, e)
  }

  ghost function GetField(lean: bool, fuel: nat, o: ObjVal, top: nat, f: string): Outcome<Val>
    decreases fuel, 0, Lit(Null), 1, 0, 0
  {
    if top > |o.layers| || FindLayer(o.layers, top, f).None? then Fails
    else if fuel == 0 then OutOfFuel
    else
      var l := FindLayer(o.layers, top, f).value;
      var layer := o.layers[l];
      Eval(lean, fuel - 1, MemberEnv(o, l), layer.def.fields[FieldIndex(layer.def.fields, f).value].value)
  }

  ghost function CallVal(lean: bool, fuel: nat, v: Val, args: seq<Thunk>): Outcome<Val>
    decreases fuel, 0, Lit(Null), 1, 0, 0
  {
    if !v.VClosure? || !CanCall(v.params, |args|) then Fails
    else if fuel == 0 then OutOfFuel
    else Eval(lean, fuel - 1, Call(v.params, args, v.env), v.body)
  }

  /** Elements collected by the comprehension `c` from its `k`-th specification on. */
  ghost function EvalSpecs(lean: bool, fuel: nat, env: Env, c: Expr, k: nat): Outcome<seq<Thunk>>
    requires c.Comp? && k <= |c.specs|
    decreases fuel, 1, c, 0, 2 * (|c.specs| - k) + 1, 0
  {
    if k == |c.specs| then Ok([MkThunk(env, c.value)])
    else match c.specs[k]
      case Cond(cond) =>
        (match Eval(lean, fuel, env, cond)
         case Ok(v) =>
           if !(v.VTriv? && v.t.Bool?) then Fails
           else if v.t.b then EvalSpecs(lean, fuel, env, c, k + 1)
           else Ok([])
         case Fails => Fails
         case OutOfFuel => OutOfFuel)
      case For(x, over) =>
        (match Eval(lean, fuel, if lean then Trim(env, over) else env, over)
         case Ok(v) => if v.VArr? then EvalIter(lean, fuel, env, c, k, v.items) else Fails
         case Fails => Fails
         case OutOfFuel => OutOfFuel)
  }

  /** One round of the `k`-th specification for every element of `items`, in order. */
  ghost function EvalIter(lean: bool, fuel: nat, env: Env, c: Expr, k: nat, items: seq<Thunk>): Outcome<seq<Thunk>>
    requires c.Comp? && k < |c.specs| && c.specs[k].For?
    decreases fuel, 1, c, 0, 2 * (|c.specs| - k), |items|
  {
    if items == [] then Ok([])
    else match EvalSpecs(lean, fuel, Iter(c.specs[k].x, items[0], env), c, k + 1)
      case Ok(ts) =>
        (match EvalIter(lean, fuel, env, c, k, items[1..])
         case Ok(us) => Ok(ts + us)
         case x => x)
      case x => x
  }
}
