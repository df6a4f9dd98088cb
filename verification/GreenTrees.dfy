/** The tree that a sequence of builder calls describes: a node holds what is added between its start
    and its finish. */
module GreenTrees {
  import opened Options
  import opened Events
  import opened SyntaxTrees
  import opened Sink

  datatype Green = Text(kind: Kind, at: nat) | Node(kind: Kind, kids: seq<Green>)

  /** An open node, and what stands before it in the node around it. */
  datatype Parent = Parent(before: seq<Green>, kind: Kind)

  datatype Pile = Pile(parents: seq<Parent>, kids: seq<Green>)

  /** The effect of one call. Finishing a node that was never started is refused. */
  function Say(p: Pile, c: Call): Option<Pile> {
    match c
    case StartNode(kind) => Some(Pile(p.parents + [Parent(p.kids, kind)], []))
    case AddToken(kind, at) => Some(Pile(p.parents, p.kids + [Text(kind, at)]))
    case FinishNode =>
      if p.parents == [] then None
      else
        var t := |p.parents| - 1;
        Some(Pile(p.parents[..t], p.parents[t].before + [Node(p.parents[t].kind, p.kids)]))
  }

  function SayAll(out: seq<Call>): Option<Pile> {
    if out == [] then Some(Pile([], []))
    else
      var r := SayAll(out[..|out| - 1]);
      if r.None? then None else Say(r.value, out[|out| - 1])
  }

  // ---------------------------------------------------------------- the calls behind a tree

  function CallsOf(gs: seq<Green>): seq<Call>
    decreases gs, 0
  {
    if gs == [] then [] else CallsOf(gs[..|gs| - 1]) + Calls(gs[|gs| - 1])
  }

  function Calls(g: Green): seq<Call>
    decreases g, 1
  {
    match g
    case Text(kind, at) => [AddToken(kind, at)]
    case Node(kind, kids) => [StartNode(kind)] + CallsOf(kids) + [FinishNode]
  }

  ghost function Said(parents: seq<Parent>, kids: seq<Green>): seq<Call>
    decreases |parents|
  {
    if parents == [] then CallsOf(kids)
    else
      var t := |parents| - 1;
      Said(parents[..t], parents[t].before) + [StartNode(parents[t].kind)] + CallsOf(kids)
  }

  lemma {:induction false} SaidMore(parents: seq<Parent>, kids: seq<Green>, g: Green)
    ensures Said(parents, kids + [g]) == Said(parents, kids) + Calls(g)
  {
    assert (kids + [g])[..|kids|] == kids;
  }

  /** No call is lost and none is made up. */
  lemma SaySaid(p: Pile, c: Call)
    requires Say(p, c).Some?
    ensures var q := Say(p, c).value; Said(q.parents, q.kids) == Said(p.parents, p.kids) + [c]
  {
    match c
    case StartNode(kind) =>
      var ps := p.parents + [Parent(p.kids, kind)];
      assert ps[..|p.parents|] == p.parents && CallsOf([]) == [];
    case AddToken(kind, at) => SaidMore(p.parents, p.kids, Text(kind, at));
    case FinishNode =>
      var t := |p.parents| - 1;
      SaidMore(p.parents[..t], p.parents[t].before, Node(p.parents[t].kind, p.kids));
  }

  ghost predicate Half(p: Pile, out: seq<Call>) {
    && |p.parents| == CallDepth(out) && Said(p.parents, p.kids) == out
    && (if p.parents != [] then p.parents[0].before == [] else |p.kids| == 1 && p.kids[0].Node?)
  }

  lemma {:induction false} HalfBuilt(out: seq<Call>, i: nat)
    requires AllInside(out) && 0 < i <= |out|
    ensures SayAll(out[..i]).Some? && Half(SayAll(out[..i]).value, out[..i])
    decreases i
  {
    var here, c := out[..i], out[i - 1];
    assert here[..i - 1] == out[..i - 1];
    if i == 1 {
      assert out[..0] == [] && CallsOf([]) == [] && Said([], []) == [];
      SaySaid(Pile([], []), c);
    } else {
      HalfBuilt(out, i - 1);
      var p := SayAll(out[..i - 1]).value;
      assert |p.parents| >= 1;
      SaySaid(p, c);
    }
  }

  /** Calls that stay inside one node and close it describe one tree. */
  lemma OneTree(out: seq<Call>) returns (g: Green)
    requires AllInside(out) && out != [] && CallDepth(out) == 0
    ensures SayAll(out) == Some(Pile([], [g])) && g.Node? && Calls(g) == out
  {
    HalfBuilt(out, |out|);
    assert out[..|out|] == out;
    var p := SayAll(out).value;
    g := p.kids[0];
    assert p.kids == [g] && [g][..0] == [] && p.parents == [];
    assert CallsOf([g]) == CallsOf([]) + Calls(g) == Calls(g);
  }

  // ---------------------------------------------------------------- trees without trivia

  /** The shape of a tree: its nodes and the kinds of the tokens the parser saw. */
  datatype Sketch = Mark(kind: Kind) | Group(kind: Kind, kids: seq<Sketch>)

  function Bares(ss: seq<Sketch>): seq<Bare>
    decreases ss, 0
  {
    if ss == [] then [] else Bares(ss[..|ss| - 1]) + BareOf(ss[|ss| - 1])
  }

  function BareOf(s: Sketch): seq<Bare>
    decreases s, 1
  {
    match s
    case Mark(kind) => [BareToken(kind)]
    case Group(kind, kids) => [BareStart(kind)] + Bares(kids) + [BareFinish]
  }

  /** What the parser has recognised. */
  function Parsed(t: Tree): Sketch
    decreases t, 1
  {
    match t
    case Leaf(kind) => Mark(kind)
    case Branch(_, _, kind, _, kids) => Group(kind, AllParsed(kids))
  }

  function AllParsed(ts: seq<Tree>): seq<Sketch>
    decreases ts, 0
  {
    if ts == [] then [] else AllParsed(ts[..|ts| - 1]) + [Parsed(ts[|ts| - 1])]
  }

  /** A tree without the lexemes the parser never saw. */
  function Trimmed(lex: seq<Lexeme>, g: Green): seq<Sketch>
    decreases g, 1
  {
    match g
    case Text(kind, at) => if at < |lex| && lex[at].kind.Trivia? then [] else [Mark(kind)]
    case Node(kind, kids) => [Group(kind, AllTrimmed(lex, kids))]
  }

  function AllTrimmed(lex: seq<Lexeme>, gs: seq<Green>): seq<Sketch>
    decreases gs, 0
  {
    if gs == [] then [] else AllTrimmed(lex, gs[..|gs| - 1]) + Trimmed(lex, gs[|gs| - 1])
  }

  lemma {:induction false} BaresConcat(a: seq<Sketch>, b: seq<Sketch>)
    ensures Bares(a + b) == Bares(a) + Bares(b)
    decreases |b|
  {
    hide BareOf;
    if b == [] {
      assert a + b == a;
    } else {
      assert (a + b)[..|a + b| - 1] == a + b[..|b| - 1];
      BaresConcat(a, b[..|b| - 1]);
    }
  }

  lemma BaresOne(s: Sketch)
    ensures Bares([s]) == BareOf(s)
  {
    assert [s][..0] == [];
  }

  lemma {:induction false} BareCallsConcat(lex: seq<Lexeme>, a: seq<Call>, b: seq<Call>)
    ensures BareCalls(lex, a + b) == BareCalls(lex, a) + BareCalls(lex, b)
    ensures Texts(a + b) == Texts(a) + Texts(b)
    decreases |b|
  {
    hide BareCall;
    if b == [] {
      assert a + b == a;
    } else {
      assert (a + b)[..|a + b| - 1] == a + b[..|b| - 1];
      BareCallsConcat(lex, a, b[..|b| - 1]);
    }
  }

  lemma BareCallsOne(lex: seq<Lexeme>, c: Call)
    ensures BareCalls(lex, [c]) == BareCall(lex, c)
  {
    assert [c][..0] == [];
  }

  lemma {:induction false} CallsTrimmed(lex: seq<Lexeme>, g: Green)
    ensures BareCalls(lex, Calls(g)) == Bares(Trimmed(lex, g))
    decreases g, 1
  {
    match g
    case Text(kind, at) =>
      BareCallsOne(lex, AddToken(kind, at));
      BaresOne(Mark(kind));
    case Node(kind, kids) =>
      AllCallsTrimmed(lex, kids);
      BareCallsOne(lex, StartNode(kind));
      BareCallsOne(lex, FinishNode);
      BareCallsConcat(lex, [StartNode(kind)], CallsOf(kids));
      BareCallsConcat(lex, [StartNode(kind)] + CallsOf(kids), [FinishNode]);
      BaresOne(Group(kind, AllTrimmed(lex, kids)));
  }

  lemma {:induction false} AllCallsTrimmed(lex: seq<Lexeme>, gs: seq<Green>)
    ensures BareCalls(lex, CallsOf(gs)) == Bares(AllTrimmed(lex, gs))
    decreases gs, 0
  {
    if gs != [] {
      var a, g := gs[..|gs| - 1], gs[|gs| - 1];
      AllCallsTrimmed(lex, a);
      CallsTrimmed(lex, g);
      BareCallsConcat(lex, CallsOf(a), Calls(g));
      BaresConcat(AllTrimmed(lex, a), Trimmed(lex, g));
    }
  }

  lemma {:induction false} BareItemsConcat(a: seq<Item>, b: seq<Item>)
    ensures BareItems(a + b) == BareItems(a) + BareItems(b)
    decreases |b|
  {
    hide BareItem;
    if b == [] {
      assert a + b == a;
    } else {
      assert (a + b)[..|a + b| - 1] == a + b[..|b| - 1];
      BareItemsConcat(a, b[..|b| - 1]);
    }
  }

  lemma BareItemsOne(it: Item)
    ensures BareItems([it]) == BareItem(it)
  {
    assert [it][..0] == [];
  }

  lemma {:induction false} LinParsed(t: Tree)
    ensures BareItems(LinTree(t)) == BareOf(Parsed(t))
    decreases t, 1
  {
    match t
    case Leaf(kind) => BareItemsOne(Tok(kind));
    case Branch(id, fid, kind, error, kids) =>
      AllLinParsed(kids);
      BareItemsOne(Begin(id, kind));
      BareItemsOne(End(fid, error));
      BareItemsConcat([Begin(id, kind)], Lin(kids));
      BareItemsConcat([Begin(id, kind)] + Lin(kids), [End(fid, error)]);
  }

  lemma {:induction false} AllLinParsed(ts: seq<Tree>)
    ensures BareItems(Lin(ts)) == Bares(AllParsed(ts))
    decreases ts, 0
  {
    if ts != [] {
      var a, t := ts[..|ts| - 1], ts[|ts| - 1];
      AllLinParsed(a);
      LinParsed(t);
      BareItemsConcat(Lin(a), LinTree(t));
      BaresConcat(AllParsed(a), [Parsed(t)]);
      BaresOne(Parsed(t));
    }
  }

  // ---------------------------------------------------------------- a sketch can be told from its calls

  /** Read from the right, the calls of a node's contents end where the node was started. */
  lemma {:induction false} SameSketch(x: seq<Bare>, k: Kind, a: seq<Sketch>, y: seq<Bare>, l: Kind, b: seq<Sketch>)
    requires x + [BareStart(k)] + Bares(a) == y + [BareStart(l)] + Bares(b)
    ensures x == y && k == l && a == b
    decreases a, 1
  {
    if a == [] || b == [] {
      LastBare(x, k, a);
      LastBare(y, l, b);
      SameEnd(x, BareStart(k), y, BareStart(l));
    } else {
      SameLast(x, k, a, y, l, b);
    }
  }

  lemma SameEnd(p: seq<Bare>, c: Bare, q: seq<Bare>, d: Bare)
    ensures p + [c] == q + [d] ==> p == q && c == d
  {
    if p + [c] == q + [d] {
      assert (p + [c])[..|p|] == p && (q + [d])[..|q|] == q && |p| == |q|;
      assert (p + [c])[|p|] == c && (q + [d])[|q|] == d;
    }
  }

  lemma LastBare(x: seq<Bare>, k: Kind, a: seq<Sketch>)
    ensures var s := x + [BareStart(k)] + Bares(a);
            if a == [] then s == x + [BareStart(k)]
            else s[|s| - 1] == if a[|a| - 1].Mark? then BareToken(a[|a| - 1].kind) else BareFinish
  {}

  /** All but the last sketch, and the call that the last one ends with. */
  ghost function Before(x: seq<Bare>, k: Kind, a: seq<Sketch>): seq<Bare>
    requires a != []
  {
    x + [BareStart(k)] + Bares(a[..|a| - 1])
  }

  lemma SplitLast(x: seq<Bare>, k: Kind, a: seq<Sketch>)
    requires a != []
    ensures var z, s := a[|a| - 1], x + [BareStart(k)] + Bares(a);
            s == if z.Mark? then Before(x, k, a) + [BareToken(z.kind)]
                 else Before(x, k, a) + [BareStart(z.kind)] + Bares(z.kids) + [BareFinish]
  {
    var z := a[|a| - 1];
    assert Bares(a) == Bares(a[..|a| - 1]) + BareOf(z);
    if z.Group? {
      var p, q := Before(x, k, a), Bares(z.kids);
      assert p + ([BareStart(z.kind)] + q + [BareFinish]) == p + [BareStart(z.kind)] + q + [BareFinish];
    }
  }

  lemma {:induction false} SameLast(x: seq<Bare>, k: Kind, a: seq<Sketch>, y: seq<Bare>, l: Kind, b: seq<Sketch>)
    requires x + [BareStart(k)] + Bares(a) == y + [BareStart(l)] + Bares(b) && a != [] && b != []
    ensures x == y && k == l && a == b
    decreases a, 0
  {
    hide Bares;
    var z, w := a[|a| - 1], b[|b| - 1];
    SplitLast(x, k, a);
    SplitLast(y, l, b);
    LastBare(x, k, a);
    LastBare(y, l, b);
    var p, q := Before(x, k, a), Before(y, l, b);
    if z.Mark? {
      SameEnd(p, BareToken(z.kind), q, BareToken(w.kind));
    } else {
      SameEnd(p + [BareStart(z.kind)] + Bares(z.kids), BareFinish, q + [BareStart(w.kind)] + Bares(w.kids), BareFinish);
      SameSketch(p, z.kind, z.kids, q, w.kind, w.kids);
    }
    SameSketch(x, k, a[..|a| - 1], y, l, b[..|b| - 1]);
    assert a == a[..|a| - 1] + [z] && b == b[..|b| - 1] + [w];
  }

  /** One sketch, one sequence of calls. */
  lemma BaresInjective(a: seq<Sketch>, b: seq<Sketch>)
    requires Bares(a) == Bares(b)
    ensures a == b
  {
    var k: Kind :| true;
    assert [] + [BareStart(k)] + Bares(a) == [] + [BareStart(k)] + Bares(b);
    SameSketch([], k, a, [], k, b);
  }

  /** Calls that agree with a tree of the parser describe that tree, with trivia put in. */
  lemma SameTree(lex: seq<Lexeme>, g: Green, root: Tree)
    requires BareCalls(lex, Calls(g)) == BareItems(LinTree(root))
    ensures Trimmed(lex, g) == [Parsed(root)]
  {
    CallsTrimmed(lex, g);
    LinParsed(root);
    BaresOne(Parsed(root));
    BaresInjective(Trimmed(lex, g), [Parsed(root)]);
  }

  // ---------------------------------------------------------------- leaves

  /** The lexemes in a tree, from left to right. */
  function Leaves(g: Green): seq<nat>
    decreases g, 1
  {
    match g
    case Text(_, at) => [at]
    case Node(_, kids) => AllLeaves(kids)
  }

  function AllLeaves(gs: seq<Green>): seq<nat>
    decreases gs, 0
  {
    if gs == [] then [] else AllLeaves(gs[..|gs| - 1]) + Leaves(gs[|gs| - 1])
  }

  lemma {:induction false} TextsLeaves(g: Green)
    ensures Texts(Calls(g)) == Leaves(g)
    decreases g, 1
  {
    match g
    case Text(kind, at) => assert [AddToken(kind, at)][..0] == [];
    case Node(kind, kids) =>
      AllTextsLeaves(kids);
      BareCallsConcat([], [StartNode(kind)], CallsOf(kids));
      BareCallsConcat([], [StartNode(kind)] + CallsOf(kids), [FinishNode]);
      assert [StartNode(kind)][..0] == [] && [FinishNode][..0] == [];
  }

  lemma {:induction false} AllTextsLeaves(gs: seq<Green>)
    ensures Texts(CallsOf(gs)) == AllLeaves(gs)
    decreases gs, 0
  {
    if gs != [] {
      AllTextsLeaves(gs[..|gs| - 1]);
      TextsLeaves(gs[|gs| - 1]);
      BareCallsConcat([], CallsOf(gs[..|gs| - 1]), Calls(gs[|gs| - 1]));
    }
  }
}
