/** Operator precedence parsing. The grouping rules are stated on concrete syntax trees, which keep
    their parentheses; the parser accepts exactly the trees that obey them. */
module Pratt {
  import opened Options

  datatype Binary =
    | Or | And | BitOr | BitXor | BitAnd | Eq | Neq | Lt | Gt | Lte | Gte | In | Lhs | Rhs | Add | Sub | Mul | Div | Mod

  datatype Unary = Plus | Minus | Not | BitNot

  /** `Keyword` stands for the fixed front of a construct that ends in an expression, such as `error`
      or `local ... ;`; `Tail` for a suffix that applies to the whole of what precedes it, such as call
      arguments or an object. */
  datatype Token =
    | TIdent(x: string) | TLit(n: int) | TOp(op: Binary) | TNot | TBitNot
    | TLParen | TRParen | TDot | TLBrack | TRBrack | TTail(k: nat) | TKeyword(k: nat) | TIf | TThen | TElse

  datatype Cst =
    | Name(x: string)
    | Number(n: int)
    | Paren(inner: Cst)
    | Un(op: Unary, arg: Cst)
    | Bin(l: Cst, bop: Binary, r: Cst)
    | Keyword(k: nat, body: Cst)
    | Cond(c: Cst, t: Cst, e: Option<Cst>)
    | Parts(base: Cst, parts: seq<Part>)
    | Tail(whole: Cst, tk: nat)

  datatype Part = Field(x: string) | At(index: Cst)

  function PrefixPower(op: Unary): nat { 20 }

  function LeftPower(op: Binary): nat {
    match op
    case Or => 2
    case And => 4
    case BitOr => 6
    case BitXor => 8
    case BitAnd => 10
    case Eq => 12
    case Neq => 12
    case Lt => 14
    case Gt => 14
    case Lte => 14
    case Gte => 14
    case In => 14
    case Lhs => 16
    case Rhs => 16
    case Add => 18
    case Sub => 18
    case Mul => 20
    case Div => 20
    case Mod => 20
  }

  function RightPower(op: Binary): nat { LeftPower(op) + 1 }

  function UnaryOf(t: Token): Option<Unary> {
    match t
    case TOp(Add) => Some(Plus)
    case TOp(Sub) => Some(Minus)
    case TNot => Some(Not)
    case TBitNot => Some(BitNot)
    case _ => None
  }

  function UnaryToken(op: Unary): Token {
    match op
    case Plus => TOp(Add)
    case Minus => TOp(Sub)
    case Not => TNot
    case BitNot => TBitNot
  }

  // ---------------------------------------------------------------- tokens of a tree

  function Tokens(c: Cst): seq<Token>
    decreases c, 1
  {
    match c
    case Name(x) => [TIdent(x)]
    case Number(n) => [TLit(n)]
    case Paren(inner) => [TLParen] + Tokens(inner) + [TRParen]
    case Un(op, arg) => [UnaryToken(op)] + Tokens(arg)
    case Bin(l, op, r) => Tokens(l) + [TOp(op)] + Tokens(r)
    case Keyword(k, body) => [TKeyword(k)] + Tokens(body)
    case Cond(c, t, e) =>
      [TIf] + (Tokens(c) + ([TThen] + (Tokens(t) + if e.Some? then [TElse] + Tokens(e.value) else [])))
    case Parts(base, parts) => Tokens(base) + PartsTokens(parts)
    case Tail(whole, k) => Tokens(whole) + [TTail(k)]
  }

  function PartsTokens(ps: seq<Part>): seq<Token>
    decreases ps, 0
  {
    if ps == [] then [] else PartsTokens(ps[..|ps| - 1]) + PartTokens(ps[|ps| - 1])
  }

  function PartTokens(p: Part): seq<Token>
    decreases p, 0
  {
    match p
    case Field(x) => [TDot, TIdent(x)]
    case At(index) => [TLBrack] + Tokens(index) + [TRBrack]
  }

  // ---------------------------------------------------------------- grouping rules

  const Top: nat := 100

  /** The lowest power that an operator after `c` must stay below in order not to be taken as part of
      the right end of `c`. */
  function Stop(c: Cst): nat {
    match c
    case Un(op, arg) => if PrefixPower(op) <= Stop(arg) then PrefixPower(op) else Stop(arg)
    case Bin(_, op, r) => if RightPower(op) <= Stop(r) then RightPower(op) else Stop(r)
    case Keyword(_, _) => 0
    case Cond(_, _, _) => 0
    case _ => Top
  }

  /** An `else` after `c` would be taken as part of it. */
  predicate Dangling(c: Cst) {
    match c
    case Un(_, arg) => Dangling(arg)
    case Bin(_, _, r) => Dangling(r)
    case Keyword(_, body) => Dangling(body)
    case Cond(_, _, e) => e.None? || Dangling(e.value)
    case _ => false
  }

  /** What index parts can be attached to. */
  predicate Primary(c: Cst) { c.Name? || c.Number? || c.Paren? || c.Tail? }

  /** `c` needs no more parentheses than it has where operators bind with power `min` or more. */
  predicate Grouped(c: Cst, min: nat)
    decreases c, 1
  {
    match c
    case Name(_) => true
    case Number(_) => true
    case Paren(inner) => Grouped(inner, 0)
    case Un(op, arg) => Grouped(arg, PrefixPower(op))
    case Bin(l, op, r) =>
      LeftPower(op) >= min && Grouped(l, min) && LeftPower(op) < Stop(l) && Grouped(r, RightPower(op))
    case Keyword(_, body) => Grouped(body, 0)
    case Cond(c, t, e) =>
      Grouped(c, 0) && Grouped(t, 0) && (e.Some? ==> !Dangling(t) && Grouped(e.value, 0))
    case Parts(base, parts) => Primary(base) && Grouped(base, min) && parts != [] && GroupedParts(parts)
    case Tail(whole, _) => (Primary(whole) || whole.Parts?) && Grouped(whole, min)
  }

  predicate GroupedParts(ps: seq<Part>)
    decreases ps, 0
  {
    forall i :: 0 <= i < |ps| ==> GroupedPart(ps[i])
  }

  predicate GroupedPart(p: Part)
    decreases p, 0
  {
    p.At? ==> Grouped(p.index, 0)
  }

  predicate SuffixStart(t: Token) { t.TDot? || t.TLBrack? || t.TTail? }

  /** The token at `i`, if any, does not extend `c`. */
  predicate NextOk(ts: seq<Token>, i: nat, c: Cst) {
    i < |ts| ==>
      && !SuffixStart(ts[i])
      && (ts[i].TOp? ==> LeftPower(ts[i].op) < Stop(c))
      && (ts[i].TElse? ==> !Dangling(c))
  }

  /** Nor does it continue an operator sequence of power `min` or more. */
  predicate EndOk(ts: seq<Token>, i: nat, min: nat) {
    i < |ts| && ts[i].TOp? ==> LeftPower(ts[i].op) < min
  }

  // ---------------------------------------------------------------- the parser's recursion

  type Parsed = Option<(Cst, nat)>

  function ParseBp(ts: seq<Token>, i: nat, min: nat): (r: Parsed)
    requires i <= |ts|
    ensures r.Some? ==> i < r.value.1 <= |ts|
    decreases |ts| - i, 5
  {
    match ParseLhs(ts, i)
    case None => None
    case Some((lhs, j)) => ParseLoop(ts, j, lhs, min)
  }

  function ParseLhs(ts: seq<Token>, i: nat): (r: Parsed)
    requires i <= |ts|
    ensures r.Some? ==> i < r.value.1 <= |ts|
    decreases |ts| - i, 4
  {
    if i < |ts| && UnaryOf(ts[i]).Some? then
      var op := UnaryOf(ts[i]).value;
      match ParseBp(ts, i + 1, PrefixPower(op))
      case None => None
      case Some((arg, j)) => Some((Un(op, arg), j))
    else ParseSuffix(ts, i)
  }

  function ParseLoop(ts: seq<Token>, i: nat, lhs: Cst, min: nat): (r: Parsed)
    requires i <= |ts|
    ensures r.Some? ==> i <= r.value.1 <= |ts|
    decreases |ts| - i, 1
  {
    if i < |ts| && ts[i].TOp? && LeftPower(ts[i].op) >= min then
      match ParseBp(ts, i + 1, RightPower(ts[i].op))
      case None => None
      case Some((rhs, j)) => ParseLoop(ts, j, Bin(lhs, ts[i].op, rhs), min)
    else Some((lhs, i))
  }

  function ParseSuffix(ts: seq<Token>, i: nat): (r: Parsed)
    requires i <= |ts|
    ensures r.Some? ==> i < r.value.1 <= |ts|
    decreases |ts| - i, 3
  {
    match ParseBasic(ts, i)
    case None => None
    case Some((base, j)) => SuffixLoop(ts, j, base, [])
  }

  function Flush(e: Cst, parts: seq<Part>): Cst { if parts == [] then e else Parts(e, parts) }

  function SuffixLoop(ts: seq<Token>, i: nat, e: Cst, parts: seq<Part>): (r: Parsed)
    requires i <= |ts|
    ensures r.Some? ==> i <= r.value.1 <= |ts|
    decreases |ts| - i, 1
  {
    if i == |ts| then Some((Flush(e, parts), i))
    else match ts[i]
      case TDot =>
        if i + 1 < |ts| && ts[i + 1].TIdent? then SuffixLoop(ts, i + 2, e, parts + [Field(ts[i + 1].x)]) else None
      case TLBrack =>
        (match ParseBp(ts, i + 1, 0)
         case None => None
         case Some((index, j)) =>
           if j < |ts| && ts[j].TRBrack? then SuffixLoop(ts, j + 1, e, parts + [At(index)]) else None)
      case TTail(k) => SuffixLoop(ts, i + 1, Tail(Flush(e, parts), k), [])
      case _ => Some((Flush(e, parts), i))
  }

  function ParseBasic(ts: seq<Token>, i: nat): (r: Parsed)
    requires i <= |ts|
    ensures r.Some? ==> i < r.value.1 <= |ts|
    decreases |ts| - i, 2
  {
    if i == |ts| then None
    else match ts[i]
      case TIdent(x) => Some((Name(x), i + 1))
      case TLit(n) => Some((Number(n), i + 1))
      case TLParen =>
        (match ParseBp(ts, i + 1, 0)
         case None => None
         case Some((inner, j)) => if j < |ts| && ts[j].TRParen? then Some((Paren(inner), j + 1)) else None)
      case TKeyword(k) =>
        (match ParseBp(ts, i + 1, 0)
         case None => None
         case Some((body, j)) => Some((Keyword(k, body), j)))
      case TIf => ParseIf(ts, i)
      case _ => None
  }

  function ParseIf(ts: seq<Token>, i: nat): (r: Parsed)
    requires i < |ts|
    ensures r.Some? ==> i < r.value.1 <= |ts|
    decreases |ts| - i, 0
  {
    match ParseBp(ts, i + 1, 0)
    case None => None
    case Some((c, j)) =>
      if j == |ts| || !ts[j].TThen? then None
      else match ParseBp(ts, j + 1, 0)
        case None => None
        case Some((t, k)) =>
          if k == |ts| || !ts[k].TElse? then Some((Cond(c, t, None), k))
          else match ParseBp(ts, k + 1, 0)
            case None => None
            case Some((e, m)) => Some((Cond(c, t, Some(e)), m))
  }

  // ---------------------------------------------------------------- what the parser returns is grouped

  /** `c` is a grouped tree for the tokens from `i` to `j`, and what comes next is not part of it. */
  ghost predicate Reads(ts: seq<Token>, i: nat, j: nat, c: Cst, min: nat) {
    && i <= j <= |ts| && Tokens(c) == ts[i..j] && Grouped(c, min) && NextOk(ts, j, c)
  }

  lemma {:induction false} ParseBpSound(ts: seq<Token>, i: nat, min: nat)
    requires i <= |ts| && ParseBp(ts, i, min).Some?
    ensures var (c, j) := ParseBp(ts, i, min).value; Reads(ts, i, j, c, min) && EndOk(ts, j, min)
    decreases |ts| - i, 5
  {
    var (lhs, j) := ParseLhs(ts, i).value;
    ParseLhsSound(ts, i, min);
    ParseLoopSound(ts, i, j, lhs, min);
  }

  lemma {:induction false} ParseLhsSound(ts: seq<Token>, i: nat, min: nat)
    requires i <= |ts| && ParseLhs(ts, i).Some?
    ensures var (c, j) := ParseLhs(ts, i).value; Reads(ts, i, j, c, min)
    decreases |ts| - i, 4
  {
    if i < |ts| && UnaryOf(ts[i]).Some? {
      ParseBpSound(ts, i + 1, PrefixPower(UnaryOf(ts[i]).value));
      var (arg, j) := ParseBp(ts, i + 1, PrefixPower(UnaryOf(ts[i]).value)).value;
      assert ts[i..j] == [ts[i]] + ts[i + 1..j];
    } else {
      ParseSuffixSound(ts, i, min);
    }
  }

  lemma JoinAt(ts: seq<Token>, i: nat, k: nat, j: nat)
    requires i <= k < j <= |ts|
    ensures ts[i..j] == ts[i..k] + [ts[k]] + ts[k + 1..j]
  {}

  lemma {:induction false} ParseLoopSound(ts: seq<Token>, i0: nat, i: nat, lhs: Cst, min: nat)
    requires i <= |ts| && ParseLoop(ts, i, lhs, min).Some? && Reads(ts, i0, i, lhs, min)
    ensures var (c, j) := ParseLoop(ts, i, lhs, min).value; Reads(ts, i0, j, c, min) && EndOk(ts, j, min)
    decreases |ts| - i, 1
  {
    if i < |ts| && ts[i].TOp? && LeftPower(ts[i].op) >= min {
      ParseBpSound(ts, i + 1, RightPower(ts[i].op));
      var (rhs, j) := ParseBp(ts, i + 1, RightPower(ts[i].op)).value;
      JoinAt(ts, i0, i, j);
      ParseLoopSound(ts, i0, j, Bin(lhs, ts[i].op, rhs), min);
    }
  }

  lemma {:induction false} ParseSuffixSound(ts: seq<Token>, i: nat, min: nat)
    requires i <= |ts| && ParseSuffix(ts, i).Some?
    ensures var (c, j) := ParseSuffix(ts, i).value; Reads(ts, i, j, c, min)
    decreases |ts| - i, 3
  {
    var (base, j) := ParseBasic(ts, i).value;
    ParseBasicSound(ts, i, min);
    if Primary(base) {
      assert PartsTokens([]) == [];
      SuffixLoopSound(ts, i, j, base, [], min);
    }
  }

  /** A primary with index parts attached so far. */
  ghost predicate ReadsParts(ts: seq<Token>, i: nat, j: nat, e: Cst, parts: seq<Part>, min: nat) {
    && i <= j <= |ts| && Primary(e) && Grouped(e, min) && GroupedParts(parts) && Tokens(e) + PartsTokens(parts) == ts[i..j]
  }

  lemma FlushReads(ts: seq<Token>, i: nat, j: nat, e: Cst, parts: seq<Part>, min: nat)
    requires ReadsParts(ts, i, j, e, parts, min)
    ensures Tokens(Flush(e, parts)) == ts[i..j] && Grouped(Flush(e, parts), min)
    ensures Stop(Flush(e, parts)) == Top && !Dangling(Flush(e, parts))
  {}

  lemma PartsMore(parts: seq<Part>, p: Part)
    requires GroupedParts(parts) && GroupedPart(p)
    ensures PartsTokens(parts + [p]) == PartsTokens(parts) + PartTokens(p) && GroupedParts(parts + [p])
  {
    assert (parts + [p])[..|parts|] == parts;
  }

  lemma JoinTwo(ts: seq<Token>, i: nat, j: nat, k: nat, a: seq<Token>, b: seq<Token>, c: seq<Token>)
    requires i <= j <= k <= |ts| && a + b == ts[i..j] && c == ts[j..k]
    ensures a + (b + c) == ts[i..k]
  {
    assert ts[i..k] == ts[i..j] + ts[j..k];
  }

  lemma OnePart(ts: seq<Token>, i: nat, j: nat, k: nat, e: Cst, parts: seq<Part>, p: Part, min: nat)
    requires ReadsParts(ts, i, j, e, parts, min) && j <= k <= |ts| && GroupedPart(p) && PartTokens(p) == ts[j..k]
    ensures ReadsParts(ts, i, k, e, parts + [p], min)
  {
    hide Tokens, PartTokens, PartsTokens, Grouped, GroupedPart;
    PartsMore(parts, p);
    JoinTwo(ts, i, j, k, Tokens(e), PartsTokens(parts), PartTokens(p));
  }

  lemma OneTail(ts: seq<Token>, i: nat, j: nat, e: Cst, parts: seq<Part>, min: nat)
    requires ReadsParts(ts, i, j, e, parts, min) && j < |ts| && ts[j].TTail?
    ensures ReadsParts(ts, i, j + 1, Tail(Flush(e, parts), ts[j].k), [], min)
  {
    FlushReads(ts, i, j, e, parts, min);
    assert ts[i..j + 1] == ts[i..j] + [ts[j]] && PartsTokens([]) == [];
  }

  lemma OneIndex(ts: seq<Token>, i: nat, j: nat, index: Cst)
    requires i < j < |ts| && ts[i].TLBrack? && ts[j].TRBrack? && Reads(ts, i + 1, j, index, 0)
    ensures PartTokens(At(index)) == ts[i..j + 1] && GroupedPart(At(index))
  {
    assert ts[i..j + 1] == [TLBrack] + ts[i + 1..j] + [TRBrack];
  }

  lemma {:induction false} SuffixLoopSound(ts: seq<Token>, i0: nat, i: nat, e: Cst, parts: seq<Part>, min: nat)
    requires i <= |ts| && SuffixLoop(ts, i, e, parts).Some? && ReadsParts(ts, i0, i, e, parts, min)
    ensures var (c, j) := SuffixLoop(ts, i, e, parts).value; Reads(ts, i0, j, c, min)
    decreases |ts| - i, 1
  {
    hide Tokens, Grouped, ReadsParts, PartsTokens, GroupedParts, ParseBp, LeftPower, Reads, GroupedPart, PartTokens;
    if i == |ts| || !SuffixStart(ts[i]) {
      SuffixEnds(ts, i0, i, e, parts, min);
    } else {
      match ts[i]
      case TDot =>
        FieldTokens(ts, i);
        OnePart(ts, i0, i, i + 2, e, parts, Field(ts[i + 1].x), min);
        SuffixLoopSound(ts, i0, i + 2, e, parts + [Field(ts[i + 1].x)], min);
      case TLBrack =>
        ParseBpSound(ts, i + 1, 0);
        var (index, j) := ParseBp(ts, i + 1, 0).value;
        OneIndex(ts, i, j, index);
        OnePart(ts, i0, i, j + 1, e, parts, At(index), min);
        SuffixLoopSound(ts, i0, j + 1, e, parts + [At(index)], min);
      case TTail(k) =>
        OneTail(ts, i0, i, e, parts, min);
        SuffixLoopSound(ts, i0, i + 1, Tail(Flush(e, parts), k), [], min);
    }
  }

  lemma FieldTokens(ts: seq<Token>, i: nat)
    requires i + 1 < |ts| && ts[i].TDot? && ts[i + 1].TIdent?
    ensures PartTokens(Field(ts[i + 1].x)) == ts[i..i + 2] && GroupedPart(Field(ts[i + 1].x))
  {}

  lemma SuffixEnds(ts: seq<Token>, i: nat, j: nat, e: Cst, parts: seq<Part>, min: nat)
    requires ReadsParts(ts, i, j, e, parts, min) && (j < |ts| ==> !SuffixStart(ts[j]))
    ensures Reads(ts, i, j, Flush(e, parts), min)
  {
    FlushReads(ts, i, j, e, parts, min);
    if j < |ts| { PowersBelowTop(ts[j]); }
  }

  lemma PowersBelowTop(t: Token)
    ensures t.TOp? ==> LeftPower(t.op) < Top
  {}

  lemma {:induction false} ParseBasicSound(ts: seq<Token>, i: nat, min: nat)
    requires i <= |ts| && ParseBasic(ts, i).Some?
    ensures var (c, j) := ParseBasic(ts, i).value;
            && i <= j <= |ts| && Tokens(c) == ts[i..j] && Grouped(c, min)
            && (Primary(c) || (NextOk(ts, j, c) && (c.Keyword? || c.Cond?)))
    decreases |ts| - i, 2
  {
    match ts[i]
    case TLParen =>
      ParseBpSound(ts, i + 1, 0);
      var (inner, j) := ParseBp(ts, i + 1, 0).value;
      assert ts[i..j + 1] == [TLParen] + ts[i + 1..j] + [TRParen];
    case TKeyword(k) =>
      ParseBpSound(ts, i + 1, 0);
      var (body, j) := ParseBp(ts, i + 1, 0).value;
      assert ts[i..j] == [ts[i]] + ts[i + 1..j];
    case TIf => ParseIfSound(ts, i, min);
    case TIdent(_) => assert ts[i..i + 1] == [ts[i]];
    case TLit(_) => assert ts[i..i + 1] == [ts[i]];
    case _ =>
  }

  lemma {:induction false} ParseIfSound(ts: seq<Token>, i: nat, min: nat)
    requires i < |ts| && ts[i].TIf? && ParseIf(ts, i).Some?
    ensures var (c, j) := ParseIf(ts, i).value; c.Cond? && Reads(ts, i, j, c, min)
    decreases |ts| - i, 0
  {
    hide ParseBp, Grouped, Tokens, NextOk, EndOk, LeftPower, Stop, Dangling;
    ParseBpSound(ts, i + 1, 0);
    var (c, j) := ParseBp(ts, i + 1, 0).value;
    ParseBpSound(ts, j + 1, 0);
    var (t, k) := ParseBp(ts, j + 1, 0).value;
    if k < |ts| && ts[k].TElse? {
      ParseBpSound(ts, k + 1, 0);
      var (e, m) := ParseBp(ts, k + 1, 0).value;
      IfReads(ts, i, j, k, m, c, t, Some(e), min);
    } else {
      IfReads(ts, i, j, k, k, c, t, None, min);
    }
  }

  lemma JoinFive(ts: seq<Token>, i: nat, j: nat, k: nat, m: nat)
    requires i < j < k <= m <= |ts|
    ensures ts[i..m] == [ts[i]] + (ts[i + 1..j] + ([ts[j]] + (ts[j + 1..k] + ts[k..m])))
  {
    assert ts[j + 1..m] == ts[j + 1..k] + ts[k..m];
    assert ts[j..m] == [ts[j]] + ts[j + 1..m];
    assert ts[i + 1..m] == ts[i + 1..j] + ts[j..m];
  }

  lemma IfReads(ts: seq<Token>, i: nat, j: nat, k: nat, m: nat, c: Cst, t: Cst, e: Option<Cst>, min: nat)
    requires i < j < |ts| && ts[i].TIf? && Reads(ts, i + 1, j, c, 0) && ts[j].TThen? && Reads(ts, j + 1, k, t, 0)
    requires EndOk(ts, k, 0) && EndOk(ts, m, 0)
    requires if e.Some? then k < |ts| && ts[k].TElse? && Reads(ts, k + 1, m, e.value, 0) else m == k && (k < |ts| ==> !ts[k].TElse?)
    ensures Reads(ts, i, m, Cst.Cond(c, t, e), min)
  {
    hide Grouped, LeftPower, Stop, Dangling;
    var cst := Cst.Cond(c, t, e);
    var back := if e.Some? then [TElse] + Tokens(e.value) else [];
    assert ts[k..m] == back;
    JoinFive(ts, i, j, k, m);
    IfGrouped(ts, k, m, c, t, e, min);
  }

  lemma IfGrouped(ts: seq<Token>, k: nat, m: nat, c: Cst, t: Cst, e: Option<Cst>, min: nat)
    requires Grouped(c, 0) && Grouped(t, 0) && NextOk(ts, k, t) && EndOk(ts, m, 0)
    requires if e.Some? then k < |ts| && ts[k].TElse? && Grouped(e.value, 0) && NextOk(ts, m, e.value)
             else m == k && (k < |ts| ==> !ts[k].TElse?)
    ensures Grouped(Cst.Cond(c, t, e), min) && NextOk(ts, m, Cst.Cond(c, t, e))
  {}

  // ---------------------------------------------------------------- every grouped tree is what the parser returns

  /** `c` stands at `i..j` and is not extended by what follows. */
  ghost predicate Stands(ts: seq<Token>, i: nat, j: nat, c: Cst) {
    i <= j <= |ts| && Tokens(c) == ts[i..j] && NextOk(ts, j, c)
  }

  lemma Cut(ts: seq<Token>, i: nat, j: nat, a: seq<Token>, b: seq<Token>)
    requires i <= j <= |ts| && ts[i..j] == a + b
    ensures i + |a| <= j && ts[i..i + |a|] == a && ts[i + |a|..j] == b
  {
    assert ts[i..i + |a|] == (a + b)[..|a|] && ts[i + |a|..j] == (a + b)[|a|..];
  }

  lemma CutOne(ts: seq<Token>, i: nat, j: nat, t: Token, b: seq<Token>)
    requires i <= j <= |ts| && ts[i..j] == [t] + b
    ensures i < j && ts[i] == t && ts[i + 1..j] == b
  {
    assert ts[i] == ts[i..j][0];
    Cut(ts, i, j, [t], b);
  }

  lemma CutLast(ts: seq<Token>, i: nat, j: nat, a: seq<Token>, t: Token)
    requires i <= j <= |ts| && ts[i..j] == a + [t]
    ensures i < j && ts[j - 1] == t && ts[i..j - 1] == a
  {
    assert ts[j - 1] == ts[i..j][|a|];
    Cut(ts, i, j, a, [t]);
  }

  lemma LoopStops(ts: seq<Token>, j: nat, c: Cst, min: nat)
    requires j <= |ts| && EndOk(ts, j, min)
    ensures ParseLoop(ts, j, c, min) == Some((c, j))
  {}

  lemma {:induction false} ParseBpComplete(ts: seq<Token>, i: nat, j: nat, c: Cst, min: nat)
    requires Stands(ts, i, j, c) && Grouped(c, min)
    ensures ParseBp(ts, i, min) == ParseLoop(ts, j, c, min)
    decreases c, 5
  {
    match c
    case Bin(l, op, r) => BinComplete(ts, i, j, c, min);
    case Un(op, arg) => UnComplete(ts, i, j, c, min);
    case _ => SuffixComplete(ts, i, j, c, min);
  }

  lemma {:induction false} BinComplete(ts: seq<Token>, i: nat, j: nat, c: Cst, min: nat)
    requires c.Bin? && Stands(ts, i, j, c) && Grouped(c, min)
    ensures ParseBp(ts, i, min) == ParseLoop(ts, j, c, min)
    decreases c, 4
  {
    hide ParseBp;
    var k := i + |Tokens(c.l)|;
    Cut(ts, i, j, Tokens(c.l) + [TOp(c.bop)], Tokens(c.r));
    CutLast(ts, i, k + 1, Tokens(c.l), TOp(c.bop));
    ParseBpComplete(ts, i, k, c.l, min);
    ParseBpComplete(ts, k + 1, j, c.r, RightPower(c.bop));
    LoopStops(ts, j, c.r, RightPower(c.bop));
    assert ParseLoop(ts, k, c.l, min) == ParseLoop(ts, j, Cst.Bin(c.l, c.bop, c.r), min);
  }

  lemma {:induction false} UnComplete(ts: seq<Token>, i: nat, j: nat, c: Cst, min: nat)
    requires c.Un? && Stands(ts, i, j, c) && Grouped(c, min)
    ensures ParseBp(ts, i, min) == ParseLoop(ts, j, c, min)
    decreases c, 4
  {
    hide ParseLoop;
    CutOne(ts, i, j, UnaryToken(c.op), Tokens(c.arg));
    assert UnaryOf(ts[i]) == Some(c.op);
    ParseBpComplete(ts, i + 1, j, c.arg, PrefixPower(c.op));
    LoopStops(ts, j, c.arg, PrefixPower(c.op));
    assert ParseLhs(ts, i) == Some((c, j));
  }

  function BaseOf(c: Cst): Cst { if c.Parts? then c.base else c }

  function PartsOf(c: Cst): seq<Part> { if c.Parts? then c.parts else [] }

  lemma {:induction false} SuffixComplete(ts: seq<Token>, i: nat, j: nat, c: Cst, min: nat)
    requires !c.Bin? && !c.Un? && Stands(ts, i, j, c) && Grouped(c, min)
    ensures ParseBp(ts, i, min) == ParseLoop(ts, j, c, min)
    decreases c, 4
  {
    hide ParseLoop;
    if c.Keyword? {
      KeywordComplete(ts, i, j, c, min);
    } else if c.Cond? {
      CondComplete(ts, i, j, c, min);
    } else {
      PrimaryComplete(ts, i, j, c, min);
    }
  }

  lemma {:induction false} KeywordComplete(ts: seq<Token>, i: nat, j: nat, c: Cst, min: nat)
    requires c.Keyword? && Stands(ts, i, j, c) && Grouped(c, min)
    ensures i < |ts| && UnaryOf(ts[i]).None? && ParseSuffix(ts, i) == Some((c, j))
    decreases c, 3
  {
    hide ParseBp;
    CutOne(ts, i, j, TKeyword(c.k), Tokens(c.body));
    ParseBpComplete(ts, i + 1, j, c.body, 0);
    LoopStops(ts, j, c.body, 0);
    assert ParseBasic(ts, i) == Some((c, j));
  }

  lemma {:induction false} CondComplete(ts: seq<Token>, i: nat, j: nat, c: Cst, min: nat)
    requires c.Cond? && Stands(ts, i, j, c) && Grouped(c, min)
    ensures i < |ts| && UnaryOf(ts[i]).None? && ParseSuffix(ts, i) == Some((c, j))
    decreases c, 3
  {
    hide Grouped, Tokens, Stop, Dangling, LeftPower, ParseSuffix, ParseBp, NextOk;
    var m, n := i + 1 + |Tokens(c.c)|, i + 2 + |Tokens(c.c)| + |Tokens(c.t)|;
    CondCut(ts, i, j, c);
    CondNext(ts, m, n, j, c, min);
    hide *;
    ParseGrouped(ts, i + 1, m, c.c);
    ParseGrouped(ts, m + 1, n, c.t);
    if c.e.Some? { ParseGrouped(ts, n + 1, j, c.e.value); }
    IfParsed(ts, i, m, n, j, c);
  }

  lemma {:induction false} ParseGrouped(ts: seq<Token>, i: nat, j: nat, c: Cst)
    requires Stands(ts, i, j, c) && Grouped(c, 0) && EndOk(ts, j, 0)
    ensures ParseBp(ts, i, 0) == Some((c, j))
    decreases c, 6
  {
    hide ParseBp, ParseLoop;
    ParseBpComplete(ts, i, j, c, 0);
    LoopStops(ts, j, c, 0);
  }

  lemma IfParsed(ts: seq<Token>, i: nat, m: nat, n: nat, j: nat, c: Cst)
    requires c.Cond? && i < m < n <= j <= |ts| && ts[i] == TIf && ts[m] == TThen && (j < |ts| ==> !SuffixStart(ts[j]))
    requires ParseBp(ts, i + 1, 0) == Some((c.c, m)) && ParseBp(ts, m + 1, 0) == Some((c.t, n))
    requires if c.e.Some? then n < j && ts[n] == TElse && ParseBp(ts, n + 1, 0) == Some((c.e.value, j))
             else n == j && (n < |ts| ==> !ts[n].TElse?)
    ensures UnaryOf(ts[i]).None? && ParseSuffix(ts, i) == Some((c, j))
  {
    hide ParseBp, ParseLoop, LeftPower;
    assert ParseIf(ts, i) == Some((c, j));
    assert ParseBasic(ts, i) == Some((c, j));
    assert SuffixLoop(ts, j, c, []) == Some((c, j));
  }

  /** Where the parts of a conditional stand. */
  lemma CondCut(ts: seq<Token>, i: nat, j: nat, c: Cst)
    requires c.Cond? && i <= j <= |ts| && Tokens(c) == ts[i..j]
    ensures var m, n := i + 1 + |Tokens(c.c)|, i + 2 + |Tokens(c.c)| + |Tokens(c.t)|;
            && i < m < n <= j && ts[i] == TIf && ts[m] == TThen && Tokens(c.c) == ts[i + 1..m] && Tokens(c.t) == ts[m + 1..n]
            && (if c.e.Some? then n < j && ts[n] == TElse && Tokens(c.e.value) == ts[n + 1..j] else n == j)
  {
    TokensCond(c);
    hide Tokens;
    var back := if c.e.Some? then [TElse] + Tokens(c.e.value) else [];
    var n := i + 2 + |Tokens(c.c)| + |Tokens(c.t)|;
    CutFive(ts, i, j, TIf, Tokens(c.c), TThen, Tokens(c.t), back);
    if c.e.Some? { CutOne(ts, n, j, TElse, Tokens(c.e.value)); }
  }

  lemma TokensCond(c: Cst)
    requires c.Cond?
    ensures var back := if c.e.Some? then [TElse] + Tokens(c.e.value) else [];
            Tokens(c) == [TIf] + (Tokens(c.c) + ([TThen] + (Tokens(c.t) + back)))
  {}

  lemma CutFive(ts: seq<Token>, i: nat, j: nat, x: Token, a: seq<Token>, y: Token, b: seq<Token>, c: seq<Token>)
    requires i <= j <= |ts| && ts[i..j] == [x] + (a + ([y] + (b + c)))
    ensures var m, n := i + 1 + |a|, i + 2 + |a| + |b|;
            i < m < n <= j && ts[i] == x && ts[i + 1..m] == a && ts[m] == y && ts[m + 1..n] == b && ts[n..j] == c
  {
    var d := b + c;
    CutOne(ts, i, j, x, a + ([y] + d));
    Cut(ts, i + 1, j, a, [y] + d);
    CutOne(ts, i + 1 + |a|, j, y, d);
    Cut(ts, i + 2 + |a|, j, b, c);
  }

  lemma CondNext(ts: seq<Token>, m: nat, n: nat, j: nat, c: Cst, min: nat)
    requires c.Cond? && m < n <= j <= |ts| && ts[m] == TThen && NextOk(ts, j, c) && Grouped(c, min)
    requires if c.e.Some? then n < j && ts[n] == TElse else n == j
    ensures NextOk(ts, m, c.c) && NextOk(ts, n, c.t) && (c.e.Some? ==> NextOk(ts, j, c.e.value))
    ensures EndOk(ts, m, 0) && EndOk(ts, n, 0) && EndOk(ts, j, 0)
    ensures Grouped(c.c, 0) && Grouped(c.t, 0) && (c.e.Some? ==> Grouped(c.e.value, 0))
    ensures c.e.None? && n < |ts| ==> !ts[n].TElse?
    ensures j < |ts| ==> !SuffixStart(ts[j])
  {}

  /** Without regard to what follows: suffixes may still be added. */
  lemma {:induction false} PrimaryReached(ts: seq<Token>, i: nat, j: nat, c: Cst, min: nat)
    requires (Primary(c) || c.Parts?) && i <= j <= |ts| && Tokens(c) == ts[i..j] && Grouped(c, min)
    ensures i < |ts| && UnaryOf(ts[i]).None? && ParseSuffix(ts, i) == SuffixLoop(ts, j, BaseOf(c), PartsOf(c))
    decreases c, 2
  {
    match c
    case Name(x) => assert ts[i] == ts[i..j][0];
    case Number(n) => assert ts[i] == ts[i..j][0];
    case Paren(inner) => ParenReached(ts, i, j, c);
    case Parts(base, parts) =>
      Cut(ts, i, j, Tokens(base), PartsTokens(parts));
      var k := i + |Tokens(base)|;
      PrimaryReached(ts, i, k, base, min);
      PartsReached(ts, k, j, base, parts);
    case Tail(whole, k) =>
      CutLast(ts, i, j, Tokens(whole), TTail(k));
      PrimaryReached(ts, i, j - 1, whole, min);
      assert Flush(BaseOf(whole), PartsOf(whole)) == whole;
  }

  lemma {:induction false} ParenReached(ts: seq<Token>, i: nat, j: nat, c: Cst)
    requires c.Paren? && i <= j <= |ts| && Tokens(c) == ts[i..j] && Grouped(c.inner, 0)
    ensures i < |ts| && UnaryOf(ts[i]).None? && ParseSuffix(ts, i) == SuffixLoop(ts, j, c, [])
    decreases c, 1
  {
    hide ParseBp, SuffixLoop;
    CutLast(ts, i, j, [TLParen] + Tokens(c.inner), TRParen);
    CutOne(ts, i, j - 1, TLParen, Tokens(c.inner));
    ParseBpComplete(ts, i + 1, j - 1, c.inner, 0);
    LoopStops(ts, j - 1, c.inner, 0);
    assert ParseBasic(ts, i) == Some((c, j));
  }

  lemma {:induction false} PartsReached(ts: seq<Token>, k: nat, j: nat, base: Cst, parts: seq<Part>)
    requires k <= j <= |ts| && PartsTokens(parts) == ts[k..j] && GroupedParts(parts)
    ensures SuffixLoop(ts, k, base, []) == SuffixLoop(ts, j, base, parts)
    decreases parts, 0
  {
    if parts != [] {
      var init, p := parts[..|parts| - 1], parts[|parts| - 1];
      Cut(ts, k, j, PartsTokens(init), PartTokens(p));
      var m := k + |PartsTokens(init)|;
      PartsReached(ts, k, m, base, init);
      assert GroupedPart(p);
      PartReached(ts, m, j, base, init, p);
      assert init + [p] == parts;
    }
  }

  lemma {:induction false} PartReached(ts: seq<Token>, k: nat, j: nat, base: Cst, init: seq<Part>, p: Part)
    requires k <= j <= |ts| && PartTokens(p) == ts[k..j] && GroupedPart(p)
    ensures SuffixLoop(ts, k, base, init) == SuffixLoop(ts, j, base, init + [p])
    decreases p, 0
  {
    match p
    case Field(x) => assert ts[k] == ts[k..j][0] && ts[k + 1] == ts[k..j][1];
    case At(index) =>
      hide ParseBp;
      CutLast(ts, k, j, [TLBrack] + Tokens(index), TRBrack);
      CutOne(ts, k, j - 1, TLBrack, Tokens(index));
      ParseBpComplete(ts, k + 1, j - 1, index, 0);
      LoopStops(ts, j - 1, index, 0);
  }

  lemma {:induction false} PrimaryComplete(ts: seq<Token>, i: nat, j: nat, c: Cst, min: nat)
    requires (Primary(c) || c.Parts?) && Stands(ts, i, j, c) && Grouped(c, min)
    ensures i < |ts| && UnaryOf(ts[i]).None? && ParseSuffix(ts, i) == Some((c, j))
    decreases c, 3
  {
    hide ParseSuffix;
    PrimaryReached(ts, i, j, c, min);
    assert Flush(BaseOf(c), PartsOf(c)) == c;
  }

  // ---------------------------------------------------------------- the parser characterised

  /** A whole token sequence: it must be used up. */
  function Parse(ts: seq<Token>): Option<Cst> {
    match ParseBp(ts, 0, 0)
    case Some((c, j)) => if j == |ts| then Some(c) else None
    case None => None
  }

  /** The parser accepts exactly the token sequences of grouped trees, and returns that tree. */
  lemma ParseIff(ts: seq<Token>, c: Cst)
    ensures Parse(ts) == Some(c) <==> Tokens(c) == ts && Grouped(c, 0)
  {
    assert ts[0..|ts|] == ts;
    if Parse(ts) == Some(c) { ParseBpSound(ts, 0, 0); }
    if Tokens(c) == ts && Grouped(c, 0) { ParseGrouped(ts, 0, |ts|, c); }
  }

  /** Grouping is unambiguous. */
  lemma Unambiguous(a: Cst, b: Cst)
    requires Tokens(a) == Tokens(b) && Grouped(a, 0) && Grouped(b, 0)
    ensures a == b
  {
    ParseIff(Tokens(a), a);
    ParseIff(Tokens(a), b);
  }

  /** A prefix operator binds no tighter than multiplication. */
  lemma PrefixTie(x: string, y: string)
    ensures Parse([TOp(Sub), TIdent(x), TOp(Mul), TIdent(y)]) == Some(Un(Minus, Cst.Bin(Name(x), Mul, Name(y))))
    ensures !Grouped(Cst.Bin(Un(Minus, Name(x)), Mul, Name(y)), 0)
  {
    var c := Un(Minus, Cst.Bin(Name(x), Mul, Name(y)));
    assert Tokens(Cst.Bin(Name(x), Mul, Name(y))) == [TIdent(x), TOp(Mul), TIdent(y)];
    assert Tokens(c) == [TOp(Sub), TIdent(x), TOp(Mul), TIdent(y)];
    assert Grouped(Name(x), 20) && Grouped(Name(y), 21) && Stop(Name(x)) == Top && LeftPower(Mul) == 20;
    assert Grouped(c.arg, 20);
    ParseIff(Tokens(c), c);
  }

  // ---------------------------------------------------------------- expressions, and printing them

  datatype Expr =
    | EName(x: string)
    | ENumber(n: int)
    | EUn(op: Unary, arg: Expr)
    | EBin(l: Expr, bop: Binary, r: Expr)
    | EKeyword(k: nat, body: Expr)
    | ECond(c: Expr, t: Expr, e: Option<Expr>)
    | EIndex(base: Expr, parts: seq<EPart>)
    | ETail(whole: Expr, tk: nat)

  datatype EPart = EField(x: string) | EAt(index: Expr)

  function Erase(c: Cst): Expr
    decreases c, 1
  {
    match c
    case Name(x) => EName(x)
    case Number(n) => ENumber(n)
    case Paren(inner) => Erase(inner)
    case Un(op, arg) => EUn(op, Erase(arg))
    case Bin(l, op, r) => EBin(Erase(l), op, Erase(r))
    case Keyword(k, body) => EKeyword(k, Erase(body))
    case Cond(c, t, e) => ECond(Erase(c), Erase(t), if e.Some? then Some(Erase(e.value)) else None)
    case Parts(base, parts) => EIndex(Erase(base), EraseParts(parts))
    case Tail(whole, k) => ETail(Erase(whole), k)
  }

  function EraseParts(ps: seq<Part>): (r: seq<EPart>)
    ensures |r| == |ps|
    decreases ps, 0
  {
    if ps == [] then [] else EraseParts(ps[..|ps| - 1]) + [ErasePart(ps[|ps| - 1])]
  }

  function ErasePart(p: Part): EPart
    decreases p, 0
  {
    if p.Field? then EField(p.x) else EAt(Erase(p.index))
  }

  /** No empty index. */
  predicate Proper(e: Expr)
    decreases e, 1
  {
    match e
    case EName(_) => true
    case ENumber(_) => true
    case EUn(_, arg) => Proper(arg)
    case EBin(l, _, r) => Proper(l) && Proper(r)
    case EKeyword(_, body) => Proper(body)
    case ECond(c, t, e) => Proper(c) && Proper(t) && (e.Some? ==> Proper(e.value))
    case EIndex(base, parts) => Proper(base) && parts != [] && ProperParts(parts)
    case ETail(whole, _) => Proper(whole)
  }

  predicate ProperParts(ps: seq<EPart>)
    decreases ps, 0
  {
    forall i :: 0 <= i < |ps| ==> ProperPart(ps[i])
  }

  predicate ProperPart(p: EPart)
    decreases p, 0
  {
    p.EAt? ==> Proper(p.index)
  }

  /** An operand for a position where operators bind with power `min` or more. */
  predicate Fits(c: Cst, min: nat) { c.Bin? ==> LeftPower(c.bop) >= min }

  function ParenUnless(bare: bool, c: Cst): Cst { if bare then c else Paren(c) }

  /** The tree with as few parentheses as the binding powers allow. */
  function Minimal(e: Expr): Cst
    decreases e, 1
  {
    match e
    case EName(x) => Name(x)
    case ENumber(n) => Number(n)
    case EUn(op, arg) => Un(op, ParenUnless(Fits(Minimal(arg), PrefixPower(op)), Minimal(arg)))
    case EBin(l, op, r) =>
      Cst.Bin(ParenUnless(LeftPower(op) < Stop(Minimal(l)), Minimal(l)), op,
              ParenUnless(Fits(Minimal(r), RightPower(op)), Minimal(r)))
    case EKeyword(k, body) => Keyword(k, Minimal(body))
    case ECond(c, t, e) =>
      Cst.Cond(Minimal(c), ParenUnless(e.None? || !Dangling(Minimal(t)), Minimal(t)),
               if e.Some? then Some(Minimal(e.value)) else None)
    case EIndex(base, parts) => Parts(ParenUnless(Primary(Minimal(base)), Minimal(base)), MinimalParts(parts))
    case ETail(whole, k) => Tail(ParenUnless(Primary(Minimal(whole)) || Minimal(whole).Parts?, Minimal(whole)), k)
  }

  function MinimalParts(ps: seq<EPart>): (r: seq<Part>)
    ensures |r| == |ps|
    decreases ps, 0
  {
    if ps == [] then [] else MinimalParts(ps[..|ps| - 1]) + [MinimalPart(ps[|ps| - 1])]
  }

  function MinimalPart(p: EPart): Part
    decreases p, 0
  {
    if p.EField? then Field(p.x) else At(Minimal(p.index))
  }

  lemma {:induction false} MinimalGrouped(e: Expr, min: nat)
    requires Proper(e) && Fits(Minimal(e), min)
    ensures Grouped(Minimal(e), min)
    decreases e, 1
  {
    match e
    case EUn(op, arg) => Wrapped(arg, Fits(Minimal(arg), PrefixPower(op)), PrefixPower(op));
    case EBin(l, op, r) =>
      Wrapped(l, LeftPower(op) < Stop(Minimal(l)), min);
      Wrapped(r, Fits(Minimal(r), RightPower(op)), RightPower(op));
    case EKeyword(_, body) => MinimalGrouped(body, 0);
    case ECond(c, t, e) =>
      MinimalGrouped(c, 0);
      Wrapped(t, e.None? || !Dangling(Minimal(t)), 0);
      if e.Some? { MinimalGrouped(e.value, 0); }
    case EIndex(base, parts) =>
      Wrapped(base, Primary(Minimal(base)), min);
      PartsGrouped(parts);
    case ETail(whole, _) => Wrapped(whole, Primary(Minimal(whole)) || Minimal(whole).Parts?, min);
    case _ =>
  }

  /** An operand is grouped in its place, with parentheses or without. */
  lemma {:induction false} Wrapped(e: Expr, bare: bool, min: nat)
    requires Proper(e) && (bare ==> Fits(Minimal(e), min))
    ensures Grouped(ParenUnless(bare, Minimal(e)), min)
    decreases e, 2
  {
    if bare { MinimalGrouped(e, min); } else { MinimalGrouped(e, 0); }
  }

  lemma {:induction false} PartsGrouped(ps: seq<EPart>)
    requires ProperParts(ps)
    ensures GroupedParts(MinimalParts(ps))
    decreases ps, 0
  {
    if ps != [] {
      assert ProperPart(ps[|ps| - 1]);
      PartsGrouped(ps[..|ps| - 1]);
      PartGrouped(ps[|ps| - 1]);
    }
  }

  lemma {:induction false} PartGrouped(p: EPart)
    requires ProperPart(p)
    ensures GroupedPart(MinimalPart(p))
    decreases p, 0
  {
    if p.EAt? { MinimalGrouped(p.index, 0); }
  }

  lemma {:induction false} MinimalErases(e: Expr)
    ensures Erase(Minimal(e)) == e
    decreases e, 1
  {
    hide Fits, Stop, Dangling, Primary, LeftPower, ParenUnless;
    match e
    case EUn(op, arg) =>
      MinimalErases(arg);
      ErasesInParens(Fits(Minimal(arg), PrefixPower(op)), Minimal(arg));
    case EBin(l, op, r) =>
      MinimalErases(l);
      MinimalErases(r);
      ErasesInParens(LeftPower(op) < Stop(Minimal(l)), Minimal(l));
      ErasesInParens(Fits(Minimal(r), RightPower(op)), Minimal(r));
    case EKeyword(_, body) => MinimalErases(body);
    case ECond(_, _, _) => CondErases(e);
    case EIndex(_, _) => IndexErases(e);
    case ETail(whole, _) =>
      MinimalErases(whole);
      ErasesInParens(Primary(Minimal(whole)) || Minimal(whole).Parts?, Minimal(whole));
    case _ =>
  }

  lemma {:induction false} CondErases(e: Expr)
    requires e.ECond?
    ensures Erase(Minimal(e)) == e
    decreases e, 0
  {
    hide Dangling, ParenUnless;
    MinimalErases(e.c);
    MinimalErases(e.t);
    ErasesInParens(e.e.None? || !Dangling(Minimal(e.t)), Minimal(e.t));
    if e.e.Some? { MinimalErases(e.e.value); }
  }

  lemma {:induction false} IndexErases(e: Expr)
    requires e.EIndex?
    ensures Erase(Minimal(e)) == e
    decreases e, 0
  {
    hide Primary, ParenUnless;
    MinimalErases(e.base);
    ErasesInParens(Primary(Minimal(e.base)), Minimal(e.base));
    PartsErase(e.parts);
  }

  lemma {:induction false} PartsErase(ps: seq<EPart>)
    ensures EraseParts(MinimalParts(ps)) == ps
    decreases ps, 0
  {
    if ps != [] {
      PartsErase(ps[..|ps| - 1]);
      PartErases(ps[|ps| - 1]);
      assert MinimalParts(ps)[..|ps| - 1] == MinimalParts(ps[..|ps| - 1]);
    }
  }

  lemma {:induction false} PartErases(p: EPart)
    ensures ErasePart(MinimalPart(p)) == p
    decreases p, 0
  {
    if p.EAt? { MinimalErases(p.index); }
  }

  lemma ErasesInParens(bare: bool, c: Cst)
    ensures Erase(ParenUnless(bare, c)) == Erase(c)
  {}

  /** Printing with as few parentheses as possible and parsing gives the expression back. */
  lemma RoundTrip(e: Expr)
    requires Proper(e)
    ensures Parse(Tokens(Minimal(e))) == Some(Minimal(e)) && Erase(Minimal(e)) == e
  {
    MinimalGrouped(e, 0);
    MinimalErases(e);
    ParseIff(Tokens(Minimal(e)), Minimal(e));
  }

  // ---------------------------------------------------------------- no fewer parentheses will do

  function Opening(ts: seq<Token>): nat {
    if ts == [] then 0 else Opening(ts[..|ts| - 1]) + if ts[|ts| - 1].TLParen? then 1 else 0
  }

  function Parens(c: Cst): nat
    decreases c, 1
  {
    match c
    case Paren(inner) => 1 + Parens(inner)
    case Un(_, arg) => Parens(arg)
    case Bin(l, _, r) => Parens(l) + Parens(r)
    case Keyword(_, body) => Parens(body)
    case Cond(c, t, e) => Parens(c) + Parens(t) + if e.Some? then Parens(e.value) else 0
    case Parts(base, parts) => Parens(base) + PartsParens(parts)
    case Tail(whole, _) => Parens(whole)
    case _ => 0
  }

  function PartsParens(ps: seq<Part>): nat
    decreases ps, 0
  {
    if ps == [] then 0 else PartsParens(ps[..|ps| - 1]) + PartParens(ps[|ps| - 1])
  }

  function PartParens(p: Part): nat
    decreases p, 0
  {
    if p.At? then Parens(p.index) else 0
  }

  lemma {:induction false} OpeningConcat(a: seq<Token>, b: seq<Token>)
    ensures Opening(a + b) == Opening(a) + Opening(b)
    decreases |b|
  {
    if b == [] {
      assert a + b == a;
    } else {
      assert (a + b)[..|a + b| - 1] == a + b[..|b| - 1];
      OpeningConcat(a, b[..|b| - 1]);
    }
  }

  lemma OpeningOne(t: Token)
    ensures Opening([t]) == if t.TLParen? then 1 else 0
  {
    assert [t][..0] == [];
  }

  lemma OpeningAround(t: Token, a: seq<Token>, u: Token)
    ensures Opening([t] + a) == Opening([t]) + Opening(a) && Opening(a + [u]) == Opening(a) + Opening([u])
    ensures Opening([t] + a + [u]) == Opening([t]) + Opening(a) + Opening([u])
  {
    OpeningConcat([t], a);
    OpeningConcat(a, [u]);
    OpeningConcat([t] + a, [u]);
  }

  /** The parentheses of a tree are those of its tokens. */
  lemma {:induction false} OpeningParens(c: Cst)
    ensures Opening(Tokens(c)) == Parens(c)
    decreases c, 1
  {
    match c
    case Name(x) => OpeningOne(TIdent(x));
    case Number(n) => OpeningOne(TLit(n));
    case Paren(inner) =>
      OpeningParens(inner);
      OpeningOne(TLParen);
      OpeningOne(TRParen);
      OpeningAround(TLParen, Tokens(inner), TRParen);
    case Un(op, arg) =>
      OpeningParens(arg);
      OpeningOne(UnaryToken(op));
      OpeningAround(UnaryToken(op), Tokens(arg), TNot);
    case Bin(l, op, r) =>
      OpeningParens(l);
      OpeningParens(r);
      OpeningOne(TOp(op));
      OpeningAround(TNot, Tokens(l), TOp(op));
      OpeningConcat(Tokens(l) + [TOp(op)], Tokens(r));
    case Keyword(k, body) =>
      OpeningParens(body);
      OpeningOne(TKeyword(k));
      OpeningAround(TKeyword(k), Tokens(body), TNot);
    case Cond(_, _, _) => OpeningCond(c);
    case Parts(base, parts) =>
      OpeningParens(base);
      OpeningParts(parts);
      OpeningConcat(Tokens(base), PartsTokens(parts));
    case Tail(whole, k) =>
      OpeningParens(whole);
      OpeningOne(TTail(k));
      OpeningAround(TNot, Tokens(whole), TTail(k));
  }

  lemma {:induction false} OpeningCond(c: Cst)
    requires c.Cond?
    ensures Opening(Tokens(c)) == Parens(c)
    decreases c, 0
  {
    var last := if c.e.Some? then [TElse] + Tokens(c.e.value) else [];
    OpeningParens(c.c);
    OpeningParens(c.t);
    if c.e.Some? {
      OpeningParens(c.e.value);
      OpeningOne(TElse);
      OpeningConcat([TElse], Tokens(c.e.value));
    }
    OpeningOne(TIf);
    OpeningOne(TThen);
    OpeningConcat(Tokens(c.t), last);
    OpeningConcat([TThen], Tokens(c.t) + last);
    OpeningConcat(Tokens(c.c), [TThen] + (Tokens(c.t) + last));
    OpeningConcat([TIf], Tokens(c.c) + ([TThen] + (Tokens(c.t) + last)));
  }

  lemma {:induction false} OpeningParts(ps: seq<Part>)
    ensures Opening(PartsTokens(ps)) == PartsParens(ps)
    decreases ps, 0
  {
    if ps != [] {
      OpeningParts(ps[..|ps| - 1]);
      OpeningPart(ps[|ps| - 1]);
      OpeningConcat(PartsTokens(ps[..|ps| - 1]), PartTokens(ps[|ps| - 1]));
    }
  }

  lemma {:induction false} OpeningPart(p: Part)
    ensures Opening(PartTokens(p)) == PartParens(p)
    decreases p, 0
  {
    match p
    case Field(x) =>
      OpeningOne(TDot);
      OpeningOne(TIdent(x));
      OpeningConcat([TDot], [TIdent(x)]);
      assert [TDot, TIdent(x)] == [TDot] + [TIdent(x)];
    case At(index) =>
      OpeningParens(index);
      OpeningOne(TLBrack);
      OpeningOne(TRBrack);
      OpeningAround(TLBrack, Tokens(index), TRBrack);
  }

  /** `c` closes off its right end better than `m` does. */
  predicate Relieved(c: Cst, m: Cst) { c.Paren? || Stop(c) > Stop(m) || (Dangling(m) && !Dangling(c)) }

  /** Whatever groups like `e` has at least the parentheses of `Minimal(e)`, and one more if its right
      end is closed off better. */
  ghost predicate NoFewer(c: Cst, e: Expr) {
    Parens(c) >= Parens(Minimal(e)) + if Relieved(c, Minimal(e)) then 1 else 0
  }

  lemma {:induction false} Least(c: Cst, min: nat)
    requires Grouped(c, min)
    ensures NoFewer(c, Erase(c))
    decreases c, 1
  {
    hide Erase, NoFewer, Minimal, LeftPower, Stop;
    match c
    case Paren(inner) =>
      Least(inner, 0);
      LeastParen(c);
    case Un(op, arg) =>
      Least(arg, PrefixPower(op));
      LeastUn(c, min);
    case Bin(l, op, r) =>
      Least(l, min);
      Least(r, RightPower(op));
      LeastBin(c, min);
    case Keyword(_, body) =>
      Least(body, 0);
      LeastKeyword(c);
    case Cond(_, _, _) => LeastCond(c);
    case Parts(base, parts) =>
      Least(base, min);
      LeastParts(parts);
      LeastIndex(c, min);
    case Tail(whole, _) =>
      Least(whole, min);
      LeastTail(c, min);
    case _ => LeastLeaf(c);
  }

  /** Without parentheses around it, a tree and the printed one start with the same construct. */
  lemma HeadKept(c: Cst)
    requires !c.Paren?
    ensures var m := Minimal(Erase(c));
            && (Primary(c) <==> Primary(m)) && (c.Parts? <==> m.Parts?) && (c.Bin? <==> m.Bin?) && !m.Paren?
            && (c.Bin? ==> m.bop == c.bop)
  {}

  lemma LeastLeaf(c: Cst)
    requires c.Name? || c.Number?
    ensures NoFewer(c, Erase(c))
  {}

  lemma LeastParen(c: Cst)
    requires c.Paren? && NoFewer(c.inner, Erase(c.inner))
    ensures NoFewer(c, Erase(c))
  {}

  lemma LeastKeyword(c: Cst)
    requires c.Keyword? && NoFewer(c.body, Erase(c.body))
    ensures NoFewer(c, Erase(c))
  {}

  lemma LeastIndex(c: Cst, min: nat)
    requires c.Parts? && Grouped(c, min) && NoFewer(c.base, Erase(c.base))
    requires PartsParens(c.parts) >= PartsParens(MinimalParts(EraseParts(c.parts)))
    ensures NoFewer(c, Erase(c))
  {
    var e := Erase(c.base);
    if !c.base.Paren? { HeadKept(c.base); }
    LeastOperand(c.base, e, Primary(Minimal(e)));
    assert Minimal(Erase(c)) == Parts(ParenUnless(Primary(Minimal(e)), Minimal(e)), MinimalParts(EraseParts(c.parts)));
  }

  lemma LeastTail(c: Cst, min: nat)
    requires c.Tail? && Grouped(c, min) && NoFewer(c.whole, Erase(c.whole))
    ensures NoFewer(c, Erase(c))
  {
    var e := Erase(c.whole);
    var bare := Primary(Minimal(e)) || Minimal(e).Parts?;
    if !c.whole.Paren? { HeadKept(c.whole); }
    LeastOperand(c.whole, e, bare);
    assert Minimal(Erase(c)) == Tail(ParenUnless(bare, Minimal(e)), c.tk);
  }

  /** An operand against the one that `Minimal` puts there. */
  lemma LeastOperand(c: Cst, e: Expr, bare: bool)
    requires NoFewer(c, e) && (!bare ==> Relieved(c, Minimal(e)))
    ensures var m := ParenUnless(bare, Minimal(e)); Parens(c) >= Parens(m) + if Relieved(c, m) && bare then 1 else 0
    ensures !bare ==> Stop(ParenUnless(bare, Minimal(e))) == Top && !Dangling(ParenUnless(bare, Minimal(e)))
  {}

  lemma StopTop(c: Cst)
    ensures Stop(c) <= Top
  {}

  lemma LeastUn(c: Cst, min: nat)
    requires c.Un? && Grouped(c, min) && NoFewer(c.arg, Erase(c.arg))
    ensures NoFewer(c, Erase(c))
  {
    var e := Erase(c.arg);
    if !c.arg.Paren? { HeadKept(c.arg); }
    var bare := Fits(Minimal(e), PrefixPower(c.op));
    assert !bare ==> c.arg.Paren?;
    LeastOperand(c.arg, e, bare);
    StopTop(c.arg);
    assert Minimal(Erase(c)) == Un(c.op, ParenUnless(bare, Minimal(e)));
    hide Minimal, Erase, Grouped, NoFewer, Fits;
  }

  lemma LeastBin(c: Cst, min: nat)
    requires c.Bin? && Grouped(c, min) && NoFewer(c.l, Erase(c.l)) && NoFewer(c.r, Erase(c.r))
    ensures NoFewer(c, Erase(c))
  {
    var d, e := Erase(c.l), Erase(c.r);
    if !c.r.Paren? { HeadKept(c.r); }
    var bareL, bareR := LeftPower(c.bop) < Stop(Minimal(d)), Fits(Minimal(e), RightPower(c.bop));
    assert !bareR ==> c.r.Paren?;
    assert !bareL ==> Stop(c.l) > Stop(Minimal(d));
    LeastOperand(c.l, d, bareL);
    LeastOperand(c.r, e, bareR);
    StopTop(c.r);
    var ml, mr := ParenUnless(bareL, Minimal(d)), ParenUnless(bareR, Minimal(e));
    assert Minimal(Erase(c)) == Cst.Bin(ml, c.bop, mr);
    LeastPair(c, ml, mr, bareR);
  }

  lemma LeastPair(c: Cst, ml: Cst, mr: Cst, bareR: bool)
    requires c.Bin? && Parens(c.l) >= Parens(ml) && Parens(c.r) >= Parens(mr) + if Relieved(c.r, mr) && bareR then 1 else 0
    requires !bareR ==> Stop(mr) == Top && !Dangling(mr)
    requires Stop(c.r) <= Top
    ensures Parens(c) >= Parens(Cst.Bin(ml, c.bop, mr)) + if Relieved(c, Cst.Bin(ml, c.bop, mr)) then 1 else 0
  {}

  lemma {:induction false} LeastCond(c: Cst)
    requires c.Cond? && Grouped(c, 0)
    ensures NoFewer(c, Erase(c))
    decreases c, 0
  {
    Least(c.c, 0);
    Least(c.t, 0);
    if c.e.Some? { Least(c.e.value, 0); }
  }

  lemma {:induction false} LeastParts(ps: seq<Part>)
    requires GroupedParts(ps)
    ensures PartsParens(ps) >= PartsParens(MinimalParts(EraseParts(ps)))
    decreases ps, 0
  {
    if ps != [] {
      var qs, es := MinimalParts(EraseParts(ps)), EraseParts(ps);
      LeastParts(ps[..|ps| - 1]);
      assert GroupedPart(ps[|ps| - 1]);
      LeastPart(ps[|ps| - 1]);
      assert es[..|es| - 1] == EraseParts(ps[..|ps| - 1]);
      assert qs[..|qs| - 1] == MinimalParts(es[..|es| - 1]);
    }
  }

  lemma {:induction false} LeastPart(p: Part)
    requires GroupedPart(p)
    ensures PartParens(p) >= PartParens(MinimalPart(ErasePart(p)))
    decreases p, 0
  {
    if p.At? { Least(p.index, 0); }
  }

  /** A source that parses to `e` has at least as many parentheses as `Minimal(e)`: taking any pair
      away from it, wherever it stands, changes what it means. */
  lemma FewestParens(ts: seq<Token>, e: Expr)
    requires Opening(ts) < Opening(Tokens(Minimal(e)))
    ensures Parse(ts).Some? ==> Erase(Parse(ts).value) != e
  {
    if Parse(ts).Some? {
      var c := Parse(ts).value;
      ParseIff(ts, c);
      Least(c, 0);
      OpeningParens(c);
      OpeningParens(Minimal(e));
    }
  }

  // ---------------------------------------------------------------- the parser itself

  class Parser {
    const lexemes: seq<Token>
    var offset: nat

    constructor (lexemes: seq<Token>)
      ensures offset == 0 && this.lexemes == lexemes
    {
      this.lexemes, offset := lexemes, 0;
    }

    predicate Valid()
      reads this
    {
      offset <= |lexemes|
    }

    /** What a routine of the parser leaves when the recursion above says `want`. */
    ghost predicate Did(want: Parsed, start: nat, r: Option<Expr>)
      reads this
    {
      && Valid() && start <= offset && (want.Some? <==> r.Some?)
      && (want.Some? ==> r.value == Erase(want.value.0) && offset == want.value.1)
    }

    method ExprBp(min: nat) returns (r: Option<Expr>)
      requires Valid()
      modifies this`offset
      ensures Did(ParseBp(lexemes, old(offset), min), old(offset), r)
      decreases |lexemes| - offset, 5
    {
      ghost var start := offset;
      var lhs: Expr;
      if offset < |lexemes| && UnaryOf(lexemes[offset]).Some? {
        var op := UnaryOf(lexemes[offset]).value;
        offset := offset + 1;
        var rhs := ExprBp(PrefixPower(op));
        if rhs.None? { return None; }
        lhs := EUn(op, rhs.value);
      } else {
        var suffixed := ExprSuffix();
        if suffixed.None? { return None; }
        lhs := suffixed.value;
      }
      ghost var tree := ParseLhs(lexemes, start).value.0;
      while offset < |lexemes| && lexemes[offset].TOp? && LeftPower(lexemes[offset].op) >= min
        invariant Valid() && start < offset && lhs == Erase(tree)
        invariant ParseBp(lexemes, start, min) == ParseLoop(lexemes, offset, tree, min)
        decreases |lexemes| - offset
      {
        var op := lexemes[offset].op;
        ghost var at := offset;
        offset := offset + 1;
        var rhs := ExprBp(RightPower(op));
        if rhs.None? { return None; }
        tree := Cst.Bin(tree, op, ParseBp(lexemes, at + 1, RightPower(op)).value.0);
        lhs := EBin(lhs, op, rhs.value);
      }
      r := Some(lhs);
    }

    method ExprSuffix() returns (r: Option<Expr>)
      requires Valid()
      modifies this`offset
      ensures Did(ParseSuffix(lexemes, old(offset)), old(offset), r)
      decreases |lexemes| - offset, 4
    {
      hide ParseBp, ParseBasic, LeftPower;
      ghost var start := offset;
      var basic := ExprBasic();
      if basic.None? { return None; }
      var e, parts: seq<EPart> := basic.value, [];
      ghost var tree, tparts: seq<Part> := ParseBasic(lexemes, start).value.0, [];
      while offset < |lexemes| && SuffixStart(lexemes[offset])
        invariant Valid() && start < offset && e == Erase(tree) && parts == EraseParts(tparts)
        invariant ParseSuffix(lexemes, start) == SuffixLoop(lexemes, offset, tree, tparts)
        decreases |lexemes| - offset
      {
        if lexemes[offset].TTail? {
          var k := lexemes[offset].k;
          if parts != [] { e := EIndex(e, parts); }
          ErasedFlush(tree, tparts);
          e, parts := ETail(e, k), [];
          tree, tparts := Tail(Flush(tree, tparts), k), [];
          offset := offset + 1;
        } else {
          ghost var part;
          var p;
          p, part := IndexPart(tree, tparts);
          if p.None? { return None; }
          ErasedMore(tparts, part.value);
          parts, tparts := parts + [p.value], tparts + [part.value];
        }
      }
      if parts != [] { e := EIndex(e, parts); }
      ErasedFlush(tree, tparts);
      r := Some(e);
    }

    /** One `.name` or `[index]`. */
    method IndexPart(ghost tree: Cst, ghost tparts: seq<Part>) returns (r: Option<EPart>, ghost part: Option<Part>)
      requires Valid() && offset < |lexemes| && (lexemes[offset].TDot? || lexemes[offset].TLBrack?)
      modifies this`offset
      ensures Valid() && offset > old(offset) && r.Some? == part.Some?
      ensures part.Some? ==>
                && r.value == ErasePart(part.value)
                && SuffixLoop(lexemes, old(offset), tree, tparts) == SuffixLoop(lexemes, offset, tree, tparts + [part.value])
      ensures part.None? ==> SuffixLoop(lexemes, old(offset), tree, tparts).None?
      decreases |lexemes| - offset, 3
    {
      hide ParseBp, LeftPower;
      ghost var at := offset;
      if lexemes[offset].TDot? {
        offset := offset + 1;
        if offset == |lexemes| || !lexemes[offset].TIdent? { return None, None; }
        r, part := Some(EField(lexemes[offset].x)), Some(Field(lexemes[offset].x));
        offset := offset + 1;
      } else {
        offset := offset + 1;
        var index := ExprBp(0);
        if index.None? || offset == |lexemes| || !lexemes[offset].TRBrack? {
          return None, None;
        }
        offset := offset + 1;
        r, part := Some(EAt(index.value)), Some(At(ParseBp(lexemes, at + 1, 0).value.0));
      }
    }

    method ExprBasic() returns (r: Option<Expr>)
      requires Valid()
      modifies this`offset
      ensures Did(ParseBasic(lexemes, old(offset)), old(offset), r)
      decreases |lexemes| - offset, 3
    {
      if offset == |lexemes| { return None; }
      var t := lexemes[offset];
      match t
      case TIdent(x) =>
        offset := offset + 1;
        r := Some(EName(x));
      case TLit(n) =>
        offset := offset + 1;
        r := Some(ENumber(n));
      case TLParen =>
        offset := offset + 1;
        r := ExprBp(0);
        if r.None? { return; }
        if offset == |lexemes| || !lexemes[offset].TRParen? { return None; }
        offset := offset + 1;
      case TKeyword(k) =>
        offset := offset + 1;
        var body := ExprBp(0);
        if body.None? { return None; }
        r := Some(EKeyword(k, body.value));
      case TIf => r := IfElse();
      case _ => r := None;
    }

    method IfElse() returns (r: Option<Expr>)
      requires Valid() && offset < |lexemes|
      modifies this`offset
      ensures Did(ParseIf(lexemes, old(offset)), old(offset), r)
      decreases |lexemes| - offset, 2
    {
      offset := offset + 1;
      var c := ExprBp(0);
      if c.None? || offset == |lexemes| || !lexemes[offset].TThen? { return None; }
      offset := offset + 1;
      var t := ExprBp(0);
      if t.None? { return None; }
      if offset < |lexemes| && lexemes[offset].TElse? {
        offset := offset + 1;
        var e := ExprBp(0);
        if e.None? { return None; }
        r := Some(ECond(c.value, t.value, Some(e.value)));
      } else {
        r := Some(ECond(c.value, t.value, None));
      }
    }
  }

  lemma ErasedFlush(c: Cst, ps: seq<Part>)
    ensures Erase(Flush(c, ps)) == if EraseParts(ps) == [] then Erase(c) else EIndex(Erase(c), EraseParts(ps))
  {}

  lemma ErasedMore(ps: seq<Part>, p: Part)
    ensures EraseParts(ps + [p]) == EraseParts(ps) + [ErasePart(p)]
  {
    assert (ps + [p])[..|ps|] == ps;
  }

  /** Parsing a whole source. */
  method ParseSource(lexemes: seq<Token>) returns (r: Option<Expr>)
    ensures r.Some? <==> exists c :: Tokens(c) == lexemes && Grouped(c, 0)
    ensures forall c :: Tokens(c) == lexemes && Grouped(c, 0) ==> r == Some(Erase(c))
  {
    var p := new Parser(lexemes);
    r := p.ExprBp(0);
    if p.offset < |lexemes| { r := None; }
    ParsedWhole(lexemes);
  }

  lemma ParsedWhole(ts: seq<Token>)
    ensures Parse(ts).Some? <==> exists c :: Tokens(c) == ts && Grouped(c, 0)
    ensures forall c :: Tokens(c) == ts && Grouped(c, 0) ==> Parse(ts) == Some(c)
  {
    forall c | Tokens(c) == ts && Grouped(c, 0) ensures Parse(ts) == Some(c) { ParseIff(ts, c); }
    if Parse(ts).Some? { ParseIff(ts, Parse(ts).value); }
  }
}
