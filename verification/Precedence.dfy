/** Which operator binds tighter, told by a list of tiers and without binding powers: the trees the
    parser builds out of operands and operators are exactly those the list allows. */
module Precedence {
  import opened Options
  import opened Pratt

  /** The operators from the loosest to the tightest. */
  const Tiers: seq<set<Binary>> := [
    {Or}, {And}, {BitOr}, {BitXor}, {BitAnd}, {Binary.Eq, Neq}, {Lt, Gt, Lte, Gte, In}, {Lhs, Rhs}, {Binary.Add, Sub}, {Mul, Div, Mod}]

  ghost predicate Tighter(q: Binary, p: Binary) {
    exists i, j :: 0 <= i < j < |Tiers| && p in Tiers[i] && q in Tiers[j]
  }

  /** A name, a number or something in parentheses. */
  predicate Operand(c: Cst) { c.Name? || c.Number? || (c.Paren? && Grouped(c.inner, 0)) }

  /** Operands joined by binary operators, with prefix operators anywhere. */
  predicate Chain(c: Cst) {
    match c
    case Un(_, arg) => Chain(arg)
    case Bin(l, _, r) => Chain(l) && Chain(r)
    case _ => Operand(c)
  }

  /** The last operand of `c` has a prefix operator somewhere in front of it. */
  predicate EndsInPrefix(c: Cst) { c.Un? || (c.Bin? && EndsInPrefix(c.r)) }

  /** A tighter operator is further in, operators of one tier group to the left, and a prefix operator
      stands before the tightest tier. */
  ghost predicate Layered(c: Cst) {
    match c
    case Un(_, arg) => Layered(arg) && (arg.Bin? ==> arg.bop in Tiers[|Tiers| - 1])
    case Bin(l, p, r) =>
      && Layered(l) && Layered(r)
      && (l.Bin? ==> !Tighter(p, l.bop)) && (EndsInPrefix(l) ==> p !in Tiers[|Tiers| - 1])
      && (r.Bin? ==> Tighter(r.bop, p))
    case _ => true
  }

  /** Binding powers order the operators as the tiers do. */
  lemma PowersAreTiers(p: Binary, q: Binary)
    ensures Tighter(q, p) <==> LeftPower(p) < LeftPower(q)
    ensures p in Tiers[|Tiers| - 1] <==> LeftPower(p) >= 20
  {
    hide LeftPower;
    var i, j := TierOf(p), TierOf(q);
    assert i < j ==> p in Tiers[i] && q in Tiers[j];
    forall a, b | 0 <= a < b < |Tiers| && p in Tiers[a] && q in Tiers[b] ensures i < j {
      OneTier(p, a);
      OneTier(q, b);
    }
    if p in Tiers[|Tiers| - 1] { OneTier(p, |Tiers| - 1); }
  }

  function TierOf(p: Binary): (i: nat)
    ensures i < |Tiers| && p in Tiers[i] && LeftPower(p) == 2 * i + 2
  {
    LeftPower(p) / 2 - 1
  }

  lemma OneTier(p: Binary, i: nat)
    requires i < |Tiers| && p in Tiers[i]
    ensures i == TierOf(p)
  {}

  /** What may follow on the right of a layered chain without being drawn into it. */
  lemma {:induction false} StopOf(c: Cst, p: Binary)
    requires Chain(c) && Layered(c)
    ensures LeftPower(p) < Stop(c) <==>
              (c.Bin? ==> !Tighter(p, c.bop)) && (EndsInPrefix(c) ==> p !in Tiers[|Tiers| - 1])
    decreases c
  {
    hide Tighter, LeftPower;
    PowersBelowTop(TOp(p));
    PowersAreTiers(p, p);
    match c
    case Un(_, arg) =>
      StopOf(arg, p);
      if arg.Bin? { PowersAreTiers(arg.bop, p); PowersAreTiers(p, p); PowersAreTiers(arg.bop, arg.bop); }
    case Bin(_, q, r) =>
      StopOf(r, p);
      PowersAreTiers(q, p);
      if r.Bin? { PowersAreTiers(q, r.bop); PowersAreTiers(r.bop, p); }
    case _ =>
  }

  /** Of the trees made of operands and operators, the grouped ones are the layered ones. */
  lemma {:induction false} GroupedIff(c: Cst, min: nat)
    requires Chain(c)
    ensures Grouped(c, min) <==> Layered(c) && (c.Bin? ==> LeftPower(c.bop) >= min)
    decreases c
  {
    hide Tighter, LeftPower;
    match c
    case Un(_, arg) =>
      GroupedIff(arg, 20);
      if arg.Bin? { PowersAreTiers(arg.bop, arg.bop); }
    case Bin(l, p, r) =>
      GroupedIff(l, min);
      GroupedIff(r, RightPower(p));
      if Layered(l) { StopOf(l, p); }
      if l.Bin? { PowersAreTiers(l.bop, p); }
      if r.Bin? { PowersAreTiers(p, r.bop); }
    case _ =>
  }

  /** A chain of operands and operators is what its own tokens parse to exactly if it is layered. */
  lemma ParsesIff(c: Cst)
    requires Chain(c)
    ensures Parse(Tokens(c)) == Some(c) <==> Layered(c)
  {
    GroupedIff(c, 0);
    ParseIff(Tokens(c), c);
  }

  lemma Alone(x: Cst)
    requires Operand(x)
    ensures Chain(x) && Layered(x) && !EndsInPrefix(x) && !x.Bin? && !x.Un?
  {}

  /** Two operators: the tighter one takes the operand between them, the left one on a tie. */
  lemma TwoOperators(x: Cst, p: Binary, y: Cst, q: Binary, z: Cst)
    requires Operand(x) && Operand(y) && Operand(z)
    ensures var ts := Tokens(x) + [TOp(p)] + Tokens(y) + [TOp(q)] + Tokens(z);
            Parse(ts) == Some(if Tighter(q, p) then Cst.Bin(x, p, Cst.Bin(y, q, z)) else Cst.Bin(Cst.Bin(x, p, y), q, z))
  {
    hide Grouped, Tokens, Operand;
    if Tighter(q, p) { RightFirst(x, p, y, q, z); } else { LeftFirst(x, p, y, q, z); }
  }

  lemma RightFirst(x: Cst, p: Binary, y: Cst, q: Binary, z: Cst)
    requires Operand(x) && Operand(y) && Operand(z) && Tighter(q, p)
    ensures Parse(Tokens(x) + [TOp(p)] + Tokens(y) + [TOp(q)] + Tokens(z)) == Some(Cst.Bin(x, p, Cst.Bin(y, q, z)))
  {
    hide Grouped, Operand, Tighter;
    Alone(x);
    Alone(y);
    Alone(z);
    var r := Cst.Bin(y, q, z);
    assert Tokens(x) + [TOp(p)] + (Tokens(y) + [TOp(q)] + Tokens(z)) == Tokens(x) + [TOp(p)] + Tokens(y) + [TOp(q)] + Tokens(z);
    assert Tokens(Cst.Bin(x, p, r)) == Tokens(x) + [TOp(p)] + Tokens(r) && Chain(r) && Layered(r);
    ParsesIff(Cst.Bin(x, p, r));
  }

  lemma LeftFirst(x: Cst, p: Binary, y: Cst, q: Binary, z: Cst)
    requires Operand(x) && Operand(y) && Operand(z) && !Tighter(q, p)
    ensures Parse(Tokens(x) + [TOp(p)] + Tokens(y) + [TOp(q)] + Tokens(z)) == Some(Cst.Bin(Cst.Bin(x, p, y), q, z))
  {
    hide Grouped, Operand, Tighter;
    Alone(x);
    Alone(y);
    Alone(z);
    var l := Cst.Bin(x, p, y);
    assert Tokens(Cst.Bin(l, q, z)) == Tokens(l) + [TOp(q)] + Tokens(z) && Chain(l) && Layered(l) && !EndsInPrefix(l);
    ParsesIff(Cst.Bin(l, q, z));
  }

  /** The sign in front of an operand, and what it stands for. */
  predicate Sign(t: Token, op: Unary) {
    || (t == TOp(Binary.Add) && op == Plus) || (t == TOp(Sub) && op == Minus) || (t == TNot && op == Not) || (t == TBitNot && op == BitNot)
  }

  /** A prefix operator takes a whole product, and nothing of a looser operation. */
  lemma PrefixThenOperator(t: Token, op: Unary, x: Cst, q: Binary, y: Cst)
    requires Operand(x) && Operand(y) && Sign(t, op)
    ensures var ts := [t] + Tokens(x) + [TOp(q)] + Tokens(y);
            var tight := q in {Mul, Div, Mod};
            Parse(ts) == Some(if tight then Un(op, Cst.Bin(x, q, y)) else Cst.Bin(Un(op, x), q, y))
  {
    hide Grouped, Tokens, Operand;
    if q in {Mul, Div, Mod} {
      PrefixTight(t, op, x, q, y);
    } else {
      PrefixLoose(t, op, x, q, y);
    }
  }

  lemma PrefixTight(t: Token, op: Unary, x: Cst, q: Binary, y: Cst)
    requires Operand(x) && Operand(y) && Sign(t, op) && q in {Mul, Div, Mod}
    ensures Parse([t] + Tokens(x) + [TOp(q)] + Tokens(y)) == Some(Un(op, Cst.Bin(x, q, y)))
  {
    hide Grouped, Operand;
    Alone(x);
    Alone(y);
    var b := Cst.Bin(x, q, y);
    assert Tiers[|Tiers| - 1] == {Mul, Div, Mod} && UnaryToken(op) == t;
    assert [t] + (Tokens(x) + [TOp(q)] + Tokens(y)) == [t] + Tokens(x) + [TOp(q)] + Tokens(y);
    assert Tokens(Un(op, b)) == [t] + Tokens(b) && Chain(b) && Layered(b);
    ParsesIff(Un(op, b));
  }

  lemma PrefixLoose(t: Token, op: Unary, x: Cst, q: Binary, y: Cst)
    requires Operand(x) && Operand(y) && Sign(t, op) && q !in {Mul, Div, Mod}
    ensures Parse([t] + Tokens(x) + [TOp(q)] + Tokens(y)) == Some(Cst.Bin(Un(op, x), q, y))
  {
    hide Grouped, Operand;
    Alone(x);
    Alone(y);
    var u := Un(op, x);
    assert Tiers[|Tiers| - 1] == {Mul, Div, Mod} && UnaryToken(op) == t;
    assert Tokens(Cst.Bin(u, q, y)) == Tokens(u) + [TOp(q)] + Tokens(y) && Chain(u) && Layered(u);
    ParsesIff(Cst.Bin(u, q, y));
  }

  lemma ErasedTwo(x: Cst, p: Binary, y: Cst, q: Binary, z: Cst)
    ensures Erase(Cst.Bin(x, p, Cst.Bin(y, q, z))) == EBin(Erase(x), p, EBin(Erase(y), q, Erase(z)))
    ensures Erase(Cst.Bin(Cst.Bin(x, p, y), q, z)) == EBin(EBin(Erase(x), p, Erase(y)), q, Erase(z))
  {
    assert Erase(Cst.Bin(y, q, z)) == EBin(Erase(y), q, Erase(z)) && Erase(Cst.Bin(x, p, y)) == EBin(Erase(x), p, Erase(y));
  }

  /** A source of three operands and two operators means what the tiers say. */
  method ParseTwo(lexemes: seq<Token>, ghost x: Cst, ghost p: Binary, ghost y: Cst, ghost q: Binary, ghost z: Cst)
    returns (e: Expr)
    requires Operand(x) && Operand(y) && Operand(z) && lexemes == Tokens(x) + [TOp(p)] + Tokens(y) + [TOp(q)] + Tokens(z)
    ensures e == if Tighter(q, p) then EBin(Erase(x), p, EBin(Erase(y), q, Erase(z)))
                 else EBin(EBin(Erase(x), p, Erase(y)), q, Erase(z))
  {
    hide Grouped, Tokens, Tighter, Erase, Operand, Parse;
    TwoOperators(x, p, y, q, z);
    ParseIff(lexemes, if Tighter(q, p) then Cst.Bin(x, p, Cst.Bin(y, q, z)) else Cst.Bin(Cst.Bin(x, p, y), q, z));
    ErasedTwo(x, p, y, q, z);
    var r := ParseSource(lexemes);
    e := r.value;
  }
}
