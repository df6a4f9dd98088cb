/** From the parser's record to the tree: what a finished parse leaves is what the replay needs. */
module TreeBuilding {
  import opened Options
  import opened Events
  import opened SyntaxTrees
  import opened EventParser
  import opened Sink
  import opened GreenTrees
  import opened Placement

  /** A chain contributes the item of each of its events. */
  lemma {:induction false} ChainHolds(es: seq<Event>, i: nat, j: nat)
    requires Linked(es) && i < |es| && InChain(es, i, j) && es[i].Start? && j < |es| && es[j].Pending?
    ensures Open(j) in Openings(es, i)
    decreases |es| - i
  {
    assert LinkOk(es, i);
    var n := Next(es, i).value;
    if j == n {
      assert Openings(es, n)[|Openings(es, n)| - 1] == Open(j);
    } else {
      ChainAhead(es, n, j);
      ChainHolds(es, n, j);
    }
  }

  lemma {:induction false} FlatHolds(es: seq<Event>, i: nat, k: nat, it: Item)
    requires Linked(es) && i < k <= |es| && it in Emit(es, i)
    ensures it in Flat(es, k)
    decreases k
  {
    hide Linked, Emit;
    assert Flat(es, k) == Flat(es, k - 1) + Emit(es, k - 1);
    if i < k - 1 { FlatHolds(es, i, k - 1, it); }
  }

  /** A node that was never finished shows. */
  lemma PendingShows(es: seq<Event>, j: nat)
    requires Linked(es) && j < |es| && es[j].Pending?
    ensures Open(j) in Meaning(es)
  {
    if IsTarget(es, j) {
      TargetReached(es, j);
      var i :| 0 <= i < j && i < |es| && !IsTarget(es, i) && InChain(es, i, j);
      ChainStarts(es, i, j);
      ChainHolds(es, i, j);
      FlatHolds(es, i, |es|, Open(j));
    } else {
      assert Emit(es, j) == [Open(j)];
      FlatHolds(es, j, |es|, Open(j));
    }
  }

  lemma {:induction false} ChainStarts(es: seq<Event>, i: nat, j: nat)
    requires Linked(es) && i < j < |es| && InChain(es, i, j) && es[j].Pending?
    ensures es[i].Start?
    decreases |es| - i
  {
    assert LinkOk(es, i);
    var n := Next(es, i).value;
    if j != n {
      ChainAhead(es, n, j);
      ChainStarts(es, n, j);
    }
  }

  lemma {:induction false} ToksConcat(a: seq<Item>, b: seq<Item>)
    ensures Toks(a + b) == Toks(a) + Toks(b)
    decreases |b|
  {
    if b == [] {
      assert a + b == a;
    } else {
      assert (a + b)[..|a + b| - 1] == a + b[..|b| - 1];
      ToksConcat(a, b[..|b| - 1]);
    }
  }

  lemma {:induction false} ChainToks(es: seq<Event>, i: nat)
    requires Linked(es) && i < |es|
    ensures es[i].Start? || es[i].Pending? ==> Toks(Openings(es, i)) == 0
    ensures es[i].Finish? ==> Toks(Closings(es, i)) == 0
    decreases |es| - i
  {
    assert LinkOk(es, i);
    if !es[i].Noop? { assert [ItemAt(es, i)][..0] == []; }
    if Next(es, i).Some? {
      var n := Next(es, i).value;
      ChainToks(es, n);
      if es[i].Start? { ToksConcat(Openings(es, n), [ItemAt(es, i)]); }
      if es[i].Finish? { ToksConcat([ItemAt(es, i)], Closings(es, n)); }
    }
  }

  /** The record holds as many tokens as its meaning. */
  lemma {:induction false} SameToks(es: seq<Event>, k: nat)
    requires Linked(es) && k <= |es|
    ensures Toks(Flat(es, k)) == Tokens(es[..k])
    decreases k
  {
    if k > 0 {
      var i := k - 1;
      SameToks(es, i);
      assert es[..k][..i] == es[..i];
      ToksConcat(Flat(es, i), Emit(es, i));
      EmitToks(es, i);
    }
  }

  lemma EmitToks(es: seq<Event>, i: nat)
    requires Linked(es) && i < |es|
    ensures Toks(Emit(es, i)) == if es[i].Token? then 1 else 0
  {
    if es[i].Token? {
      forall p | 0 <= p < |es| ensures Next(es, p) != Some(i) { assert LinkOk(es, p); }
      assert [Tok(es[i].kind)][..0] == [];
    } else {
      ChainToks(es, i);
    }
  }

  /** A parse that has finished its root node. */
  lemma FinishedParse(es: seq<Event>, fin: map<nat, nat>, root: Tree)
    requires Records(es, Stack([root], []), fin) && root.Branch?
    ensures Linked(es) && NoPending(es) && Meaning(es) == LinTree(root) && Toks(LinTree(root)) == Tokens(es)
  {
    LinOne(root);
    forall j | 0 <= j < |es| ensures !es[j].Pending? {
      if es[j].Pending? {
        PendingShows(es, j);
        NothingOpen([root], Open(j));
      }
    }
    SameToks(es, |es|);
    assert es[..|es|] == es;
  }

  /** `green` is the parser's tree `root` with all lexemes in it: without the ones the parser never saw
      it is exactly `root`, its leaves are all lexemes, each once and in order, and trivia keeps its kind. */
  ghost predicate Lossless(root: Tree, lexemes: seq<Lexeme>, green: Green) {
    Trimmed(lexemes, green) == [Parsed(root)] && Leaves(green) == UpTo(|lexemes|) && TriviaKept(lexemes, Calls(green))
  }

  /** One error, with a range, for each node of `root` that was finished with one, in order. */
  ghost predicate AllLocated(root: Tree, errors: seq<Located>) {
    && |errors| == |Problems(LinTree(root))|
    && forall i :: 0 <= i < |errors| ==>
         errors[i].problem == Problems(LinTree(root))[i] && errors[i].lo <= errors[i].hi
  }

  /** Trivia between two things in a node is in that node: but for the root, no node begins or ends with it. */
  ghost predicate WellPlaced(lexemes: seq<Lexeme>, green: Green) { green.Node? && AllTidy(lexemes, green.kids, 0) }

  /** Each error covers its node's lexemes, from the start of the first to the end of the last, or the
      empty range before the next lexeme if the node has none. The root's text begins with the first
      proper lexeme and ends with the last lexeme; that of a `wrapped` root ends before the trivia. */
  ghost predicate ErrorsCover(root: Tree, lexemes: seq<Lexeme>, green: Green, errors: seq<Located>, wrapped: bool)
    requires green.Node?
  {
    var spans := WithRoot(lexemes, SpansOf(green, 0), 0, if wrapped then TextEnd(lexemes, green.kids) else |lexemes|);
    |Ends(LinTree(root))| == |spans| && errors == Ranged(lexemes, Ends(LinTree(root)), spans)
  }

  /** The same, from what the replay says about its calls. */
  lemma CallsPlaced(root: Tree, lexemes: seq<Lexeme>, out: seq<Call>, green: Green, errors: seq<Located>, end: nat, wrapped: bool)
    requires green.Node? && Calls(green) == out && AllOk(lexemes, out) && |Ends(LinTree(root))| == |Spans(out)|
    requires end == if wrapped && out != [] then Stripped(lexemes, out[..|out| - 1]) else |lexemes|
    requires errors == Ranged(lexemes, Ends(LinTree(root)), WithRoot(lexemes, Spans(out), 0, end))
    ensures WellPlaced(lexemes, green) && ErrorsCover(root, lexemes, green, errors, wrapped)
  {
    hide AllOk, Ends, Ranged, Stripped;
    TidyRoot(lexemes, green);
    SpansCalls([], green);
    assert [] + out == out && Spans([]) + SpansOf(green, 0) == SpansOf(green, 0);
    StrippedIs(lexemes, green.kind, green.kids);
    assert out[..|out| - 1] == [StartNode(green.kind)] + CallsOf(green.kids);
  }

  /** Builds the syntax tree of a parse that has finished its root node and read every lexeme it was
      given. */
  method BuildTree(p: Parser, lexemes: seq<Lexeme>) returns (green: Green, errors: seq<Located>)
    requires p.Valid() && p.stack.levels == [] && |p.stack.base| == 1 && p.stack.base[0].Branch?
    requires p.offset == |p.kinds| == Propers(lexemes) && Contiguous(lexemes)
    ensures Lossless(p.stack.base[0], lexemes, green) && AllLocated(p.stack.base[0], errors)
    ensures WellPlaced(lexemes, green)
    ensures ErrorsCover(p.stack.base[0], lexemes, green, errors, IsTarget(p.events, p.stack.base[0].fid))
  {
    ghost var root := p.stack.base[0];
    assert p.stack == Stack([root], []);
    FinishedParse(p.events, p.fin, root);
    assert Toks(LinTree(root)) == Propers(lexemes);
    hide *;
    var sink := new TreeSink(p.events, lexemes, root);
    sink.Replay();
    Assembled(lexemes, sink.out, root);
    green, errors := SayAll(sink.out).value.kids[0], sink.errors;
    ErrorsLocated(root, errors);
    CallsPlaced(root, lexemes, sink.out, green, errors, sink.rootEnd, IsTarget(p.events, root.fid));
  }

  lemma ErrorsLocated(root: Tree, errors: seq<Located>)
    requires |errors| == |Problems(LinTree(root))|
    requires forall i :: 0 <= i < |errors| ==> errors[i].problem == Problems(LinTree(root))[i] && errors[i].lo <= errors[i].hi
    ensures AllLocated(root, errors)
  {}

  /** The calls describe one tree, with everything in it. */
  lemma Assembled(lexemes: seq<Lexeme>, out: seq<Call>, root: Tree)
    requires BareCalls(lexemes, out) == BareItems(LinTree(root)) && Texts(out) == UpTo(|lexemes|) && TriviaKept(lexemes, out)
    requires AllInside(out) && CallDepth(out) == 0
    ensures SayAll(out).Some? && SayAll(out).value.kids != []
    ensures var green := SayAll(out).value.kids[0]; green.Node? && Calls(green) == out && Lossless(root, lexemes, green)
  {
    hide SayAll, CallDepth, AllInside, Texts, BareCalls, BareItems, Leaves, Calls, Trimmed, Parsed, TriviaKept, LinTree;
    SomeCalls(lexemes, out, root);
    var green := OneTree(out);
    SameTree(lexemes, green, root);
    TextsLeaves(green);
  }

  lemma SomeCalls(lex: seq<Lexeme>, out: seq<Call>, root: Tree)
    requires BareCalls(lex, out) == BareItems(LinTree(root))
    ensures out != []
  {
    LinParsed(root);
  }
}
