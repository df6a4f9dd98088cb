/** The core Jsonnet language: what the parser hands to the analyzer, and the lowered form the
    analyzer hands to the evaluator. */
module Syntax {
  import opened Options

  /** Literals. Numbers are opaque tokens: only their identity matters here. */
  datatype Trivial = Null | Bool(b: bool) | Num(n: int) | Str(s: string)

  datatype BinOp = Add | Eq | Less

  /** Constructs whose children are analysed in place, left to right, without opening a closure. */
  datatype Op = If | And | Bin(op: BinOp) | Index | Apply | Error

  /** What an expression can refer to. `Super` is not bound to a cell: it is read off the object that the
      context belongs to. */
  datatype Name = Id(x: string) | Self | Super | Dollar

  datatype Expr =
    | Lit(v: Trivial)
    | Ref(n: Name)
    | SuperField(f: string)
    | Node(op: Op, kids: seq<Expr>)
    | Arr(items: seq<Expr>)
    | Local(binds: seq<Bind>, body: Expr)
    | Fn(params: seq<Param>, body: Expr)
    | Obj(def: ObjBody)
    | Extend(base: Expr, def: ObjBody)
    | Comp(value: Expr, specs: seq<Spec>)

  datatype Bind = Bind(name: string, value: Expr)

  datatype Param = Param(name: string, default: Option<Expr>)

  datatype ObjBody = ObjBody(locals: seq<Bind>, fields: seq<Bind>)

  datatype Spec = For(x: string, over: Expr) | Cond(cond: Expr)

  /** A resolved name: a cell of the enclosing frame, or an entry of the closure's capture pack. */
  datatype Slot = SLocal(i: nat) | SCapture(i: nat)

  datatype Shape = Shape(captures: seq<Slot>, n: nat)

  datatype LExpr =
    | LSlot(s: Slot)
    | LLit(v: Trivial)
    | LSuper
    | LSuperField(f: string)
    | LNode(op: Op, kids: seq<LExpr>)
    | LArrConst(consts: seq<Trivial>)
    | LArr(shape: Shape, items: seq<LExpr>)
    | LLocal(shape: Shape, binds: seq<LBind>, body: LExpr)
    | LFn(params: seq<LParam>, shape: Shape, body: LExpr)
    | LIdentity
    | LObj(def: LObjBody)
    | LExtend(base: LExpr, def: LObjBody)
    | LComp(vshape: Shape, value: LExpr, specs: seq<LSpec>)
    | LBad

  /** A value with the closure it is evaluated in, stored into frame cell `slot`. */
  datatype LBind = LBind(slot: nat, shape: Shape, value: LExpr)

  datatype LParam = LParam(slot: nat, default: Option<LBind>)

  datatype LField = LField(name: string, shape: Shape, value: LExpr)

  /** `late` says whether cell 0 of the object's frame receives the object itself. */
  datatype LObjBody = LObjBody(shape: Shape, late: bool, locals: seq<LBind>, fields: seq<LField>)

  datatype LSpec = LFor(shape: Shape, slot: nat, over: LExpr, inv: bool) | LCond(cond: LExpr)

  function Names(bs: seq<Bind>): (r: seq<Name>)
    ensures |r| == |bs|
    ensures forall i :: 0 <= i < |bs| ==> r[i] == Id(bs[i].name)
  {
    seq(|bs|, i requires 0 <= i < |bs| => Id(bs[i].name))
  }

  function ParamNames(ps: seq<Param>): (r: seq<Name>)
    ensures |r| == |ps|
    ensures forall i :: 0 <= i < |ps| ==> r[i] == Id(ps[i].name)
  {
    seq(|ps|, i requires 0 <= i < |ps| => Id(ps[i].name))
  }

  ghost predicate Distinct<T>(xs: seq<T>) {
    forall i, j :: 0 <= i < j < |xs| ==> xs[i] != xs[j]
  }

  /** Position of the last occurrence of `x`: the innermost binder of a group. */
  function LastIndex(xs: seq<Name>, x: Name): (r: Option<nat>)
    ensures r.Some? ==> r.value < |xs| && xs[r.value] == x
    ensures r.None? ==> x !in xs
    ensures r.Some? ==> forall j :: r.value < j < |xs| ==> xs[j] != x
  {
    if xs == [] then None
    else if xs[|xs| - 1] == x then Some(|xs| - 1)
    else
      var r := LastIndex(xs[..|xs| - 1], x);
      assert forall j :: 0 <= j < |xs| - 1 ==> xs[..|xs| - 1][j] == xs[j];
      r
  }

  predicate AllTrivial(es: seq<Expr>) {
    forall i :: 0 <= i < |es| ==> es[i].Lit?
  }

  function Trivials(es: seq<Expr>): (r: seq<Trivial>)
    requires AllTrivial(es)
    ensures |r| == |es|
    ensures forall i :: 0 <= i < |es| ==> r[i] == es[i].v
  {
    seq(|es|, i requires 0 <= i < |es| => es[i].v)
  }
}
