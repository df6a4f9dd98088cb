/** Laws that tie the reference evaluator to the language, construct by construct: what a name, a call,
    a choice and a comprehension mean in terms of their parts. */
module LanguageLaws {
  import opened Options
  import opened Syntax
  import opened Resolution
  import opened ByName
  import opened Inheritance

  // ---------------------------------------------------------------- names and calls

  /** In `local ...; x`, `x` is the last binding of that name, evaluated where all of them are in scope. */
  lemma {:induction false} LocalName(fuel: nat, env: Env, bs: seq<Bind>, x: string, i: nat)
    requires i < |bs| && bs[i].name == x && forall j :: i < j < |bs| ==> bs[j].name != x
    ensures Eval(false, fuel, env, Local(bs, Ref(Id(x)))) == Later(fuel, Rec(bs, env), bs[i].value)
  {
    assert Names(bs)[i] == Id(x);
    var k := LastIndex(Names(bs), Id(x)).value;
    assert k == i by { assert Names(bs)[k] == Id(bs[k].name); }
    assert Eval(false, fuel, Rec(bs, env), Ref(Id(x))) == Force(false, fuel, Susp(Rec(bs, env), bs[i].value));
  }

  /** A name that a `local` does not bind means what it means outside. */
  lemma {:induction false} LocalOther(fuel: nat, env: Env, bs: seq<Bind>, n: Name)
    requires forall i :: 0 <= i < |bs| ==> Id(bs[i].name) != n
    ensures Eval(false, fuel, env, Local(bs, Ref(n))) == Eval(false, fuel, env, Ref(n))
  {
    assert n !in Names(bs);
  }

  /** Parameter `x` in the body of a call is the argument in its place, else its default, evaluated where
      all parameters are in scope. */
  lemma {:induction false} CalledName(fuel: nat, env: Env, ps: seq<Param>, args: seq<Expr>, x: string, i: nat)
    requires i < |ps| && ps[i].name == x && forall j :: i < j < |ps| ==> ps[j].name != x
    requires |args| <= |ps| && forall j :: |args| <= j < |ps| ==> ps[j].default.Some?
    ensures var call := Call(ps, MkThunks(env, args), env);
            Eval(false, fuel, env, Node(Apply, [Fn(ps, Ref(Id(x)))] + args))
            == if fuel == 0 then OutOfFuel
               else if i < |args| then Force(false, fuel - 1, MkThunk(env, args[i]))
               else Later(fuel - 1, call, ps[i].default.value)
  {
    var e, ts := Node(Apply, [Fn(ps, Ref(Id(x)))] + args), MkThunks(env, args);
    var call := Call(ps, ts, env);
    assert e.kids[0] == Fn(ps, Ref(Id(x))) && e.kids[1..] == args;
    assert ParamNames(ps)[i] == Id(x);
    var k := LastIndex(ParamNames(ps), Id(x)).value;
    assert k == i by { assert ParamNames(ps)[k] == Id(ps[k].name); }
    assert Eval(false, fuel, env, e) == EvalNode(false, fuel, env, e);
    assert Eval(false, fuel, env, e.kids[0]) == Ok(VClosure(ps, Ref(Id(x)), env));
    assert EvalNode(false, fuel, env, e) == CallVal(false, fuel, VClosure(ps, Ref(Id(x)), env), ts);
    if fuel > 0 {
      assert Lookup(call, Id(x)) == Some(if i < |args| then ts[i] else Susp(call, ps[i].default.value));
      assert Eval(false, fuel - 1, call, Ref(Id(x))) == Force(false, fuel - 1, Lookup(call, Id(x)).value);
    }
  }

  /** Too many arguments, or too few without defaults, is an error. */
  lemma {:induction false} CalledWrong(fuel: nat, env: Env, ps: seq<Param>, body: Expr, args: seq<Expr>)
    requires |args| > |ps| || exists j :: |args| <= j < |ps| && ps[j].default.None?
    ensures Eval(false, fuel, env, Node(Apply, [Fn(ps, body)] + args)) == Fails
  {
    var e := Node(Apply, [Fn(ps, body)] + args);
    assert e.kids[0] == Fn(ps, body) && e.kids[1..] == args;
    assert Eval(false, fuel, env, e) == EvalNode(false, fuel, env, e);
    assert Eval(false, fuel, env, e.kids[0]) == Ok(VClosure(ps, body, env));
    assert EvalNode(false, fuel, env, e) == CallVal(false, fuel, VClosure(ps, body, env), MkThunks(env, args));
  }

  // ---------------------------------------------------------------- choices

  /** `if` takes the branch its condition says and looks at no other; `&&` stops at `false`. */
  lemma {:induction false} Choices(fuel: nat, env: Env, c: Expr, a: Expr, b: Expr, t: bool)
    requires Eval(false, fuel, env, c) == Ok(VTriv(Bool(t)))
    ensures Eval(false, fuel, env, Node(If, [c, a, b])) == Eval(false, fuel, env, if t then a else b)
    ensures Eval(false, fuel, env, Node(If, [c, a])) == if t then Eval(false, fuel, env, a) else Ok(VTriv(Null))
    ensures !t ==> Eval(false, fuel, env, Node(And, [c, a])) == Ok(VTriv(Bool(false)))
    ensures t && Eval(false, fuel, env, a).Ok? && Eval(false, fuel, env, a).v.VTriv? && Eval(false, fuel, env, a).v.t.Bool? ==>
              Eval(false, fuel, env, Node(And, [c, a])) == Eval(false, fuel, env, a)
  {
    assert Eval(false, fuel, env, Node(If, [c, a, b])) == EvalNode(false, fuel, env, Node(If, [c, a, b]));
    assert Eval(false, fuel, env, Node(If, [c, a])) == EvalNode(false, fuel, env, Node(If, [c, a]));
    assert Eval(false, fuel, env, Node(And, [c, a])) == EvalNode(false, fuel, env, Node(And, [c, a]));
    assert [c, a, b][0] == c && [c, a][0] == c;
  }

  /** `+` adds numbers and joins strings, `==` compares literals, and `<` is the order of numbers. */
  lemma {:induction false} Operators(fuel: nat, env: Env, a: Expr, b: Expr, x: Trivial, y: Trivial)
    requires Eval(false, fuel, env, a) == Ok(VTriv(x)) && Eval(false, fuel, env, b) == Ok(VTriv(y))
    ensures x.Num? && y.Num? ==> Eval(false, fuel, env, Node(Bin(Add), [a, b])) == Ok(VTriv(Num(x.n + y.n)))
    ensures x.Str? && y.Str? ==> Eval(false, fuel, env, Node(Bin(Add), [a, b])) == Ok(VTriv(Str(x.s + y.s)))
    ensures Eval(false, fuel, env, Node(Bin(Eq), [a, b])) == Ok(VTriv(Bool(x == y)))
    ensures x.Num? && y.Num? ==> Eval(false, fuel, env, Node(Bin(Less), [a, b])) == Ok(VTriv(Bool(x.n < y.n)))
  {
    hide Eval;
    OperatorIs(fuel, env, Add, a, b, x, y);
    OperatorIs(fuel, env, Eq, a, b, x, y);
    OperatorIs(fuel, env, Less, a, b, x, y);
  }

  lemma {:induction false} OperatorIs(fuel: nat, env: Env, op: BinOp, a: Expr, b: Expr, x: Trivial, y: Trivial)
    requires Eval(false, fuel, env, a) == Ok(VTriv(x)) && Eval(false, fuel, env, b) == Ok(VTriv(y))
    ensures Eval(false, fuel, env, Node(Bin(op), [a, b])) == BinVal(op, VTriv(x), VTriv(y))
  {
    hide BinVal;
    assert Eval(false, fuel, env, Node(Bin(op), [a, b])) == EvalNode(false, fuel, env, Node(Bin(op), [a, b]));
    assert [a, b][0] == a && [a, b][1] == b;
  }

  // ---------------------------------------------------------------- comprehensions

  function Concat(parts: seq<seq<Thunk>>): seq<Thunk> {
    if parts == [] then [] else parts[0] + Concat(parts[1..])
  }

  /** A loop gives, in the order of the elements, what the rest of the comprehension gives for each. */
  lemma {:induction false} LoopJoins(fuel: nat, env: Env, c: Expr, k: nat, items: seq<Thunk>, parts: seq<seq<Thunk>>)
    requires c.Comp? && k < |c.specs| && c.specs[k].For? && |parts| == |items|
    requires forall i :: 0 <= i < |items| ==> EvalSpecs(false, fuel, Iter(c.specs[k].x, items[i], env), c, k + 1) == Ok(parts[i])
    ensures EvalIter(false, fuel, env, c, k, items) == Ok(Concat(parts))
    decreases |items|
  {
    hide EvalSpecs;
    if items != [] {
      assert forall i :: 0 <= i < |items| - 1 ==> items[1..][i] == items[i + 1] && parts[1..][i] == parts[i + 1];
      LoopJoins(fuel, env, c, k, items[1..], parts[1..]);
      assert EvalSpecs(false, fuel, Iter(c.specs[k].x, items[0], env), c, k + 1) == Ok(parts[0]);
    }
  }

  /** `[v for x in [...]]` is one element per item, in order, with `x` bound to the item. */
  lemma {:induction false} CompMaps(fuel: nat, env: Env, v: Expr, x: string, items: seq<Expr>)
    ensures Eval(false, fuel, env, Comp(v, [For(x, Arr(items))]))
            == Ok(VArr(seq(|items|, i requires 0 <= i < |items| => MkThunk(Iter(x, Susp(env, items[i]), env), v))))
  {
    CompKeeps(fuel, env, v, x, items, [], seq(|items|, _ => true));
    AllKept(env, v, x, items, seq(|items|, _ => true));
    assert [For(x, Arr(items))] + [] == [For(x, Arr(items))];
  }

  /** The elements that `keep` says, in order. */
  function Kept(env: Env, v: Expr, x: string, items: seq<Expr>, keep: seq<bool>): seq<Thunk>
    requires |keep| == |items|
  {
    if items == [] then []
    else (if keep[0] then [MkThunk(Iter(x, Susp(env, items[0]), env), v)] else []) + Kept(env, v, x, items[1..], keep[1..])
  }

  lemma {:induction false} AllKept(env: Env, v: Expr, x: string, items: seq<Expr>, keep: seq<bool>)
    requires |keep| == |items| && forall i :: 0 <= i < |keep| ==> keep[i]
    ensures Kept(env, v, x, items, keep)
            == seq(|items|, i requires 0 <= i < |items| => MkThunk(Iter(x, Susp(env, items[i]), env), v))
    decreases |items|
  {
    if items != [] { AllKept(env, v, x, items[1..], keep[1..]); }
  }

  lemma {:induction false} KeptJoins(env: Env, v: Expr, x: string, items: seq<Expr>, keep: seq<bool>, parts: seq<seq<Thunk>>)
    requires |keep| == |items| == |parts|
    requires forall i :: 0 <= i < |items| ==> parts[i] == if keep[i] then [MkThunk(Iter(x, Susp(env, items[i]), env), v)] else []
    ensures Concat(parts) == Kept(env, v, x, items, keep)
    decreases |items|
  {
    if items != [] { KeptJoins(env, v, x, items[1..], keep[1..], parts[1..]); }
  }

  /** With a condition: the elements for which it holds. */
  lemma {:induction false} CompKeeps(fuel: nat, env: Env, v: Expr, x: string, items: seq<Expr>, conds: seq<Spec>, keep: seq<bool>)
    requires |keep| == |items| && |conds| <= 1 && forall i :: 0 <= i < |conds| ==> conds[i].Cond?
    requires forall i :: 0 <= i < |items| ==>
               if conds == [] then keep[i]
               else Eval(false, fuel, Iter(x, Susp(env, items[i]), env), conds[0].cond) == Ok(VTriv(Bool(keep[i])))
    ensures Eval(false, fuel, env, Comp(v, [For(x, Arr(items))] + conds)) == Ok(VArr(Kept(env, v, x, items, keep)))
  {
    var c, ts := Comp(v, [For(x, Arr(items))] + conds), Suspended(env, items);
    var parts := seq(|items|, i requires 0 <= i < |items| =>
                                if keep[i] then [MkThunk(Iter(x, Susp(env, items[i]), env), v)] else []);
    forall i | 0 <= i < |items| ensures EvalSpecs(false, fuel, Iter(x, ts[i], env), c, 1) == Ok(parts[i]) {
      if conds != [] { assert c.specs[1] == conds[0]; }
    }
    LoopJoins(fuel, env, c, 0, ts, parts);
    KeptJoins(env, v, x, items, keep, parts);
    assert c.specs[0] == For(x, Arr(items)) && Eval(false, fuel, env, Arr(items)) == Ok(VArr(ts));
    assert EvalSpecs(false, fuel, env, c, 0) == EvalIter(false, fuel, env, c, 0, ts);
  }
}
