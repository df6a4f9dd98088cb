/** Where in the tree trivia ends up, and which text the error of a node covers. */
module Placement {
  import opened Options
  import opened Events
  import opened SyntaxTrees
  import opened Sink
  import opened GreenTrees

  predicate IsTrivia(lex: seq<Lexeme>, g: Green) { g.Text? && g.at < |lex| && lex[g.at].kind.Trivia? }

  // ---------------------------------------------------------------- trivia

  /** No node in `g`, whose first lexeme is number `at`, begins or ends with trivia: what follows the
      place where it begins is proper, and the last thing in it is no trivia. */
  ghost predicate Tidy(lex: seq<Lexeme>, g: Green, at: nat)
    decreases g, 1
  {
    g.Node? ==> AtProper(lex, at) && (g.kids != [] ==> !IsTrivia(lex, g.kids[|g.kids| - 1])) && AllTidy(lex, g.kids, at)
  }

  ghost predicate AllTidy(lex: seq<Lexeme>, gs: seq<Green>, at: nat)
    decreases gs, 0
  {
    gs == [] || (AllTidy(lex, gs[..|gs| - 1], at) && Tidy(lex, gs[|gs| - 1], at + |AllLeaves(gs[..|gs| - 1])|))
  }

  lemma {:induction false} CallDepthConcat(a: seq<Call>, b: seq<Call>)
    ensures CallDepth(a + b) == CallDepth(a) + CallDepth(b)
    decreases |b|
  {
    if b == [] {
      assert a + b == a;
    } else {
      assert (a + b)[..|a + b| - 1] == a + b[..|b| - 1];
      CallDepthConcat(a, b[..|b| - 1]);
    }
  }

  lemma CallDepthOne(c: Call)
    ensures CallDepth([c]) == if c.StartNode? then 1 else if c.FinishNode? then -1 else 0
    ensures Texts([c]) == if c.AddToken? then [c.at] else []
  {
    assert [c][..0] == [];
  }

  lemma {:induction false} CallsClose(g: Green)
    ensures CallDepth(Calls(g)) == 0
    decreases g, 1
  {
    match g
    case Text(kind, at) => CallDepthOne(AddToken(kind, at));
    case Node(kind, kids) =>
      AllCallsClose(kids);
      CallDepthOne(StartNode(kind));
      CallDepthOne(FinishNode);
      CallDepthConcat([StartNode(kind)], CallsOf(kids));
      CallDepthConcat([StartNode(kind)] + CallsOf(kids), [FinishNode]);
  }

  lemma {:induction false} AllCallsClose(gs: seq<Green>)
    ensures CallDepth(CallsOf(gs)) == 0
    decreases gs, 0
  {
    if gs != [] {
      AllCallsClose(gs[..|gs| - 1]);
      CallsClose(gs[|gs| - 1]);
      CallDepthConcat(CallsOf(gs[..|gs| - 1]), Calls(gs[|gs| - 1]));
    }
  }

  /** State of the calls `x` after the contents of some nodes have been put in. */
  lemma After(x: seq<Call>, gs: seq<Green>)
    ensures CallDepth(x + CallsOf(gs)) == CallDepth(x) && |Texts(x + CallsOf(gs))| == |Texts(x)| + |AllLeaves(gs)|
  {
    AllCallsClose(gs);
    CallDepthConcat(x, CallsOf(gs));
    BareCallsConcat([], x, CallsOf(gs));
    AllTextsLeaves(gs);
  }

  lemma Entered(x: seq<Call>, kind: Kind)
    ensures CallDepth(x + [StartNode(kind)]) == CallDepth(x) + 1 && Texts(x + [StartNode(kind)]) == Texts(x)
  {
    assert (x + [StartNode(kind)])[..|x|] == x;
  }

  lemma {:induction false} TidyCalls(lex: seq<Lexeme>, x: seq<Call>, g: Green, y: seq<Call>)
    requires AllOk(lex, x + Calls(g) + y) && CallDepth(x) >= 1
    ensures Tidy(lex, g, |Texts(x)|)
    decreases g, 1
  {
    hide CallDepth, Texts;
    if g.Node? {
      var out, x', b := x + Calls(g) + y, x + [StartNode(g.kind)], CallsOf(g.kids);
      assert out == x' + b + ([FinishNode] + y);
      Entered(x, g.kind);
      AllTidyCalls(lex, x', g.kids, [FinishNode] + y);
      assert out[..|x|] == x && out[|x|] == StartNode(g.kind);
      NotEmpty(x);
      After(x', g.kids);
      var k := |x' + b|;
      assert out[..k] == x' + b && out[k] == FinishNode;
      if g.kids != [] { TriviaShows(lex, x', g.kids); }
    }
  }

  lemma NotEmpty(x: seq<Call>)
    requires CallDepth(x) >= 1
    ensures x != []
  {}

  lemma TriviaShows(lex: seq<Lexeme>, x: seq<Call>, gs: seq<Green>)
    requires gs != [] && !TriviaLast(lex, x + CallsOf(gs))
    ensures !IsTrivia(lex, gs[|gs| - 1])
  {
    var g, a := gs[|gs| - 1], CallsOf(gs[..|gs| - 1]);
    if g.Text? { assert x + CallsOf(gs) == x + a + [AddToken(g.kind, g.at)]; }
  }

  lemma {:induction false} AllTidyCalls(lex: seq<Lexeme>, x: seq<Call>, gs: seq<Green>, y: seq<Call>)
    requires AllOk(lex, x + CallsOf(gs) + y) && CallDepth(x) >= 1
    ensures AllTidy(lex, gs, |Texts(x)|)
    decreases gs, 0
  {
    hide CallDepth, Texts, AllOk;
    if gs != [] {
      var a, g := gs[..|gs| - 1], gs[|gs| - 1];
      assert x + CallsOf(gs) + y == x + CallsOf(a) + (Calls(g) + y);
      AllTidyCalls(lex, x, a, Calls(g) + y);
      After(x, a);
      assert x + CallsOf(gs) + y == x + CallsOf(a) + Calls(g) + y;
      TidyCalls(lex, x + CallsOf(a), g, y);
    }
  }

  /** Everything inside the root is tidy. */
  lemma TidyRoot(lex: seq<Lexeme>, root: Green)
    requires root.Node? && AllOk(lex, Calls(root))
    ensures AllTidy(lex, root.kids, 0)
  {
    var s: seq<Call> := [StartNode(root.kind)];
    assert Calls(root) == s + CallsOf(root.kids) + [FinishNode];
    CallDepthOne(StartNode(root.kind));
    AllTidyCalls(lex, s, root.kids, [FinishNode]);
  }

  // ---------------------------------------------------------------- the text of a node

  /** The lexemes of each node in `g`, in the order in which nodes are left. */
  function SpansOf(g: Green, at: nat): seq<(nat, nat)>
    decreases g, 1
  {
    match g
    case Text(_, _) => []
    case Node(_, kids) => AllSpans(kids, at) + [(at, at + |AllLeaves(kids)|)]
  }

  function AllSpans(gs: seq<Green>, at: nat): seq<(nat, nat)>
    decreases gs, 0
  {
    if gs == [] then []
    else AllSpans(gs[..|gs| - 1], at) + SpansOf(gs[|gs| - 1], at + |AllLeaves(gs[..|gs| - 1])|)
  }

  lemma CallAdds(x: seq<Call>, c: Call)
    ensures var bs := Bases(x);
            && Bases(x + [c]) == (if c.StartNode? then bs + [|Texts(x)|] else if c.FinishNode? && bs != [] then bs[..|bs| - 1] else bs)
            && Spans(x + [c]) == if c.FinishNode? && bs != [] then Spans(x) + [(bs[|bs| - 1], |Texts(x)|)] else Spans(x)
  {
    assert (x + [c])[..|x|] == x;
  }

  lemma {:induction false} SpansCalls(x: seq<Call>, g: Green)
    ensures Bases(x + Calls(g)) == Bases(x) && Spans(x + Calls(g)) == Spans(x) + SpansOf(g, |Texts(x)|)
    decreases g, 1
  {
    hide Bases, Spans, Texts;
    match g
    case Text(kind, at) => CallAdds(x, AddToken(kind, at));
    case Node(kind, kids) =>
      var x' := x + [StartNode(kind)];
      CallAdds(x, StartNode(kind));
      Entered(x, kind);
      AllSpansCalls(x', kids);
      After(x', kids);
      CallAdds(x' + CallsOf(kids), FinishNode);
      assert x + Calls(g) == x' + CallsOf(kids) + [FinishNode];
      Assoc(Spans(x), AllSpans(kids, |Texts(x)|), [(|Texts(x)|, |Texts(x)| + |AllLeaves(kids)|)]);
  }

  lemma Assoc<T>(a: seq<T>, b: seq<T>, c: seq<T>)
    ensures a + b + c == a + (b + c)
  {}

  lemma {:induction false} AllSpansCalls(x: seq<Call>, gs: seq<Green>)
    ensures Bases(x + CallsOf(gs)) == Bases(x) && Spans(x + CallsOf(gs)) == Spans(x) + AllSpans(gs, |Texts(x)|)
    decreases gs, 0
  {
    hide Bases, Spans, Texts;
    if gs == [] {
      assert x + CallsOf(gs) == x;
    } else {
      var a, g := gs[..|gs| - 1], gs[|gs| - 1];
      AllSpansCalls(x, a);
      After(x, a);
      SpansCalls(x + CallsOf(a), g);
      assert CallsOf(gs) == CallsOf(a) + Calls(g);
      assert AllSpans(gs, |Texts(x)|) == AllSpans(a, |Texts(x)|) + SpansOf(g, |Texts(x)| + |AllLeaves(a)|);
      hide CallsOf, Calls, AllSpans, SpansOf, AllLeaves;
      Assoc(x, CallsOf(a), Calls(g));
      Assoc(Spans(x), AllSpans(a, |Texts(x)|), SpansOf(g, |Texts(x)| + |AllLeaves(a)|));
    }
  }

  /** Number of lexemes in `gs` before the trivia at its end. */
  function TextEnd(lex: seq<Lexeme>, gs: seq<Green>): nat {
    if gs != [] && IsTrivia(lex, gs[|gs| - 1]) then TextEnd(lex, gs[..|gs| - 1]) else |AllLeaves(gs)|
  }

  lemma {:induction false} StrippedIs(lex: seq<Lexeme>, kind: Kind, gs: seq<Green>)
    ensures Stripped(lex, [StartNode(kind)] + CallsOf(gs)) == TextEnd(lex, gs)
    decreases |gs|
  {
    var out := [StartNode(kind)] + CallsOf(gs);
    CallDepthOne(StartNode(kind));
    After([StartNode(kind)], gs);
    if gs != [] {
      var a, g := gs[..|gs| - 1], gs[|gs| - 1];
      assert out == [StartNode(kind)] + CallsOf(a) + Calls(g);
      match g
      case Text(k, at) =>
        assert out[..|out| - 1] == [StartNode(kind)] + CallsOf(a) && out[|out| - 1] == AddToken(k, at);
        StrippedIs(lex, kind, a);
      case Node(k, kids) =>
        assert Calls(g)[|Calls(g)| - 1] == FinishNode && out[|out| - 1] == FinishNode;
    }
  }

  // ---------------------------------------------------------------- first and last lexeme of a node

  predicate Leafless(g: Green) { Leaves(g) == [] }

  /** The last thing in `g`, or in the last thing in it and so on, is a node without lexemes. */
  predicate EndsEmpty(g: Green)
    decreases g
  {
    g.Node? && g.kids != [] && g.kids[|g.kids| - 1].Node? && (Leafless(g.kids[|g.kids| - 1]) || EndsEmpty(g.kids[|g.kids| - 1]))
  }

  /** `g` holds the lexemes from `at` on. */
  predicate Holds(lex: seq<Lexeme>, g: Green, at: nat) {
    Leaves(g) == seq(|Leaves(g)|, i => at + i) && at + |Leaves(g)| <= |lex|
  }

  lemma LastHolds(lex: seq<Lexeme>, g: Green, at: nat)
    requires g.Node? && g.kids != [] && Holds(lex, g, at)
    ensures var n := |g.kids| - 1;
            var last, at' := g.kids[n], at + |AllLeaves(g.kids[..n])|;
            && Holds(lex, last, at') && at' + |Leaves(last)| == at + |Leaves(g)|
  {
    var n := |g.kids| - 1;
    var a, b := AllLeaves(g.kids[..n]), Leaves(g.kids[n]);
    assert Leaves(g) == a + b;
    forall i | 0 <= i < |b| ensures b[i] == at + |a| + i { assert Leaves(g)[|a| + i] == b[i]; }
  }

  /** A node with lexemes begins with a proper one, and ends with one unless it ends in an empty node. */
  lemma {:induction false} ProperEnds(lex: seq<Lexeme>, g: Green, at: nat)
    requires g.Node? && Tidy(lex, g, at) && Holds(lex, g, at) && Leaves(g) != []
    ensures lex[at].kind.Proper?
    ensures !EndsEmpty(g) ==> lex[at + |Leaves(g)| - 1].kind.Proper?
    decreases g
  {
    var n := |g.kids| - 1;
    LastHolds(lex, g, at);
    var last, at' := g.kids[n], at + |AllLeaves(g.kids[..n])|;
    if !EndsEmpty(g) {
      match last
      case Text(kind, k) =>
        assert Leaves(last)[0] == k && seq(|Leaves(last)|, i => at' + i)[0] == at' + 0;
      case Node(_, _) => ProperEnds(lex, last, at');
    }
  }

  /** One that ends in an empty node ends with a proper lexeme exactly if no trivia follows its last
      proper lexeme `m`: such trivia was put in before the empty node. */
  lemma {:induction false} EmptyEnds(lex: seq<Lexeme>, g: Green, at: nat, m: nat)
    requires g.Node? && Tidy(lex, g, at) && Holds(lex, g, at) && Leaves(g) != [] && EndsEmpty(g)
    requires at <= m < at + |Leaves(g)| && lex[m].kind.Proper? && forall k :: m < k < at + |Leaves(g)| ==> lex[k].kind.Trivia?
    ensures lex[at + |Leaves(g)| - 1].kind.Proper? <==> AtProper(lex, m + 1)
    decreases g
  {
    var n := |g.kids| - 1;
    LastHolds(lex, g, at);
    var last, at' := g.kids[n], at + |AllLeaves(g.kids[..n])|;
    assert Tidy(lex, last, at');
    if !Leafless(last) {
      ProperEnds(lex, last, at');
      EmptyEnds(lex, last, at', m);
    }
  }
}
