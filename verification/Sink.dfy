/** Replaying the event record into a tree builder: links are followed out of order, the events they
    lead to are blanked, and the lexemes the parser never saw are put back in between. */
module Sink {
  import opened Options
  import opened Events
  import opened SyntaxTrees

  /** A lexeme with the range of its text. */
  datatype Lexeme = Lexeme(kind: Kind, lo: nat, hi: nat)

  /** What the tree builder is told; a token is lexeme number `at`. */
  datatype Call = StartNode(kind: Kind) | AddToken(kind: Kind, at: nat) | FinishNode

  datatype Located = Located(problem: Problem, lo: nat, hi: nat)

  ghost predicate Contiguous(lex: seq<Lexeme>) {
    && (lex != [] ==> lex[0].lo == 0)
    && (forall i :: 0 <= i < |lex| ==> lex[i].lo <= lex[i].hi)
    && (forall i :: 0 <= i < |lex| - 1 ==> lex[i].hi == lex[i + 1].lo)
  }

  // ---------------------------------------------------------------- chains, seen from their members

  ghost predicate InChain(es: seq<Event>, i: nat, j: nat)
    requires Linked(es) && i < |es|
    decreases |es| - i
  {
    assert LinkOk(es, i);
    j == i || (Next(es, i).Some? && InChain(es, Next(es, i).value, j))
  }

  /** Some event before `idx` begins a chain that runs through `j`. */
  ghost predicate Reached(es: seq<Event>, idx: nat, j: nat)
    requires Linked(es)
  {
    exists i :: 0 <= i < idx && i < |es| && !IsTarget(es, i) && InChain(es, i, j)
  }

  lemma {:induction false} ChainAhead(es: seq<Event>, i: nat, j: nat)
    requires Linked(es) && i < |es| && InChain(es, i, j)
    ensures i <= j < |es| && (j != i ==> IsTarget(es, j))
    ensures j != i ==> exists p :: 0 <= p < |es| && InChain(es, i, p) && Next(es, p) == Some(j)
    decreases |es| - i
  {
    assert LinkOk(es, i);
    if j != i {
      var n := Next(es, i).value;
      ChainAhead(es, n, j);
      if j == n {
        assert InChain(es, i, i) && Next(es, i) == Some(j);
      } else {
        var p :| 0 <= p < |es| && InChain(es, n, p) && Next(es, p) == Some(j);
        assert InChain(es, i, p);
      }
    }
  }

  lemma {:induction false} ChainOn(es: seq<Event>, i: nat, j: nat, n: nat)
    requires Linked(es) && i < |es| && InChain(es, i, j) && j < |es| && Next(es, j) == Some(n)
    ensures InChain(es, i, n)
    decreases |es| - i
  {
    assert LinkOk(es, i) && LinkOk(es, j);
    if j == i { assert InChain(es, n, n); } else { ChainOn(es, Next(es, i).value, j, n); }
  }

  lemma OnlySource(es: seq<Event>, p: nat, q: nat, n: nat)
    requires Linked(es) && p < |es| && q < |es| && Next(es, p) == Some(n) && Next(es, q) == Some(n)
    ensures p == q
  {
    assert p < q ==> Apart(es, p, q);
    assert q < p ==> Apart(es, q, p);
  }

  /** An event that is linked to has been reached by the time it is its turn. */
  lemma {:induction false} TargetReached(es: seq<Event>, j: nat)
    requires Linked(es) && j < |es| && IsTarget(es, j)
    ensures Reached(es, j, j)
    decreases j
  {
    var i :| 0 <= i < |es| && Next(es, i) == Some(j);
    assert LinkOk(es, i);
    if IsTarget(es, i) {
      TargetReached(es, i);
      var r :| 0 <= r < i && r < |es| && !IsTarget(es, r) && InChain(es, r, i);
      ChainOn(es, r, i, j);
    } else {
      assert InChain(es, i, i);
      ChainOn(es, i, i, j);
    }
  }

  lemma FirstNotReached(es: seq<Event>, idx: nat)
    requires Linked(es) && idx < |es| && !IsTarget(es, idx)
    ensures !Reached(es, idx, idx)
  {
    if Reached(es, idx, idx) {
      var i :| 0 <= i < idx && i < |es| && !IsTarget(es, i) && InChain(es, i, idx);
      ChainAhead(es, i, idx);
    }
  }

  /** Chains do not join, so what follows an unreached event is unreached. */
  lemma NextNotReached(es: seq<Event>, idx: nat, j: nat, n: nat)
    requires Linked(es) && j < |es| && idx <= j && !Reached(es, idx, j) && Next(es, j) == Some(n)
    ensures !Reached(es, idx, n)
  {
    assert LinkOk(es, j);
    if Reached(es, idx, n) {
      var i :| 0 <= i < idx && i < |es| && !IsTarget(es, i) && InChain(es, i, n);
      ChainAhead(es, i, n);
      var p :| 0 <= p < |es| && InChain(es, i, p) && Next(es, p) == Some(n);
      OnlySource(es, p, j, n);
    }
  }

  /** The record as left by the replay of its first `idx` events. */
  ghost predicate Blanked(es: seq<Event>, cur: seq<Event>, idx: nat)
    requires Linked(es)
  {
    |cur| == |es| && forall k: nat :: k < |es| ==> cur[k] == if k < idx || Reached(es, idx, k) then Noop else es[k]
  }

  /** In the middle of the chain that begins at `idx`, having come as far as `j`. */
  ghost predicate Blanking(es: seq<Event>, cur: seq<Event>, idx: nat, j: nat)
    requires Linked(es) && idx < |es|
  {
    && |cur| == |es|
    && forall k: nat :: k < |es| ==>
         cur[k] == if k < idx || Reached(es, idx, k) || (InChain(es, idx, k) && k <= j) then Noop else es[k]
  }

  lemma BlankingStarts(es: seq<Event>, cur: seq<Event>, idx: nat)
    requires Linked(es) && idx < |es| && !IsTarget(es, idx) && Blanked(es, cur, idx)
    ensures cur[idx] == es[idx] && Blanking(es, cur[idx := Noop], idx, idx)
  {
    FirstNotReached(es, idx);
    forall k: nat | k < |es| && InChain(es, idx, k) && k <= idx ensures k == idx { ChainAhead(es, idx, k); }
  }

  lemma BlankingOn(es: seq<Event>, cur: seq<Event>, idx: nat, j: nat, n: nat)
    requires Linked(es) && idx <= j < |es| && Blanking(es, cur, idx, j) && InChain(es, idx, j) && !Reached(es, idx, j)
    requires Next(es, j) == Some(n)
    ensures j < n < |es| && cur[n] == es[n] && InChain(es, idx, n) && !Reached(es, idx, n)
    ensures Blanking(es, cur[n := Noop], idx, n)
  {
    assert LinkOk(es, j);
    ChainOn(es, idx, j, n);
    NextNotReached(es, idx, j, n);
    forall k: nat | k < |es| && InChain(es, idx, k) && k <= n ensures k <= j || k == n { ChainOrder(es, idx, j, k, n); }
  }

  /** Nothing of a chain lies between two neighbours. */
  lemma {:induction false} ChainOrder(es: seq<Event>, i: nat, j: nat, k: nat, n: nat)
    requires Linked(es) && i < |es| && j < |es| && InChain(es, i, j) && InChain(es, i, k) && Next(es, j) == Some(n)
    ensures k <= j || k >= n
    decreases |es| - i
  {
    assert LinkOk(es, i);
    if j == i {
      if k != i { ChainAhead(es, n, k); }
    } else if k == i {
      ChainAhead(es, i, j);
    } else {
      ChainOrder(es, Next(es, i).value, j, k, n);
    }
  }

  lemma BlankingEnds(es: seq<Event>, cur: seq<Event>, idx: nat, j: nat)
    requires Linked(es) && idx <= j < |es| && Blanking(es, cur, idx, j) && InChain(es, idx, j) && Next(es, j).None?
    requires !IsTarget(es, idx)
    ensures Blanked(es, cur, idx + 1)
  {
    forall k: nat | k < |es|
      ensures Reached(es, idx + 1, k) <==> Reached(es, idx, k) || InChain(es, idx, k)
      ensures InChain(es, idx, k) ==> k <= j
    {
      if InChain(es, idx, k) { ChainLast(es, idx, j, k); }
    }
  }

  lemma {:induction false} ChainLast(es: seq<Event>, i: nat, j: nat, k: nat)
    requires Linked(es) && i < |es| && j < |es| && InChain(es, i, j) && InChain(es, i, k) && Next(es, j).None?
    ensures k <= j
    decreases |es| - i
  {
    assert LinkOk(es, i);
    if k == i {
      ChainAhead(es, i, j);
    } else if j != i {
      ChainLast(es, Next(es, i).value, j, k);
    }
  }

  /** An event whose turn comes after something linked to it has already been blanked. */
  lemma TargetBlank(es: seq<Event>, cur: seq<Event>, idx: nat)
    requires Linked(es) && idx < |es| && IsTarget(es, idx) && Blanked(es, cur, idx)
    ensures cur[idx] == Noop && Blanked(es, cur, idx + 1)
  {
    TargetReached(es, idx);
    forall k: nat | k < |es| ensures Reached(es, idx + 1, k) <==> Reached(es, idx, k) {}
  }

  // ---------------------------------------------------------------- nesting

  function Change(it: Item): int { if it.Begin? then 1 else if it.End? then -1 else 0 }

  function Depth(its: seq<Item>): int {
    if its == [] then 0 else Depth(its[..|its| - 1]) + Change(its[|its| - 1])
  }

  lemma {:induction false} DepthConcat(a: seq<Item>, b: seq<Item>)
    ensures Depth(a + b) == Depth(a) + Depth(b)
    decreases |b|
  {
    hide Change;
    if b == [] {
      assert a + b == a;
    } else {
      assert (a + b)[..|a + b| - 1] == a + b[..|b| - 1];
      DepthConcat(a, b[..|b| - 1]);
    }
  }

  lemma DepthOne(it: Item)
    ensures Depth([it]) == Change(it)
  {
    assert [it][..0] == [];
  }

  /** A sequence of trees never closes more than it has opened, and closes everything. */
  lemma {:induction false} TreesNest(ts: seq<Tree>, k: nat)
    requires k <= |Lin(ts)|
    ensures Depth(Lin(ts)[..k]) >= 0 && Depth(Lin(ts)) == 0
    decreases ts, 0
  {
    if ts != [] {
      var a, b := Lin(ts[..|ts| - 1]), LinTree(ts[|ts| - 1]);
      TreesNest(ts[..|ts| - 1], if k <= |a| then k else |a|);
      TreeNests(ts[|ts| - 1], if k <= |a| then 0 else k - |a|);
      assert Lin(ts) == a + b;
      hide Lin, LinTree;
      DepthConcat(a, b);
      DepthCut(a, b, k);
      assert a[..|a|] == a;
    }
  }

  lemma DepthCut(a: seq<Item>, b: seq<Item>, k: nat)
    requires k <= |a| + |b|
    ensures Depth((a + b)[..k]) == if k <= |a| then Depth(a[..k]) else Depth(a) + Depth(b[..k - |a|])
  {
    hide Depth;
    if k <= |a| {
      assert (a + b)[..k] == a[..k];
    } else {
      assert (a + b)[..k] == a + b[..k - |a|];
      DepthConcat(a, b[..k - |a|]);
    }
  }

  lemma {:induction false} TreeNests(t: Tree, k: nat)
    requires k <= |LinTree(t)|
    ensures Depth(LinTree(t)[..k]) >= 0 && Depth(LinTree(t)) == 0
    ensures t.Branch? && 0 < k < |LinTree(t)| ==> Depth(LinTree(t)[..k]) >= 1
    decreases t, 1
  {
    match t
    case Leaf(kind) =>
      DepthOne(Tok(kind));
      assert k == 0 || [Tok(kind)][..k] == [Tok(kind)];
    case Branch(id, fid, kind, error, kids) =>
      var a, b, c := [Begin(id, kind)], Lin(kids), [End(fid, error)];
      var m := if k < 1 then 0 else if k - 1 <= |b| then k - 1 else |b|;
      TreesNest(kids, m);
      DepthOne(a[0]);
      DepthOne(c[0]);
      DepthConcat(a, b);
      DepthConcat(a + b, c);
      DepthConcat(a, b[..m]);
      if 0 < k < |LinTree(t)| { assert (a + b + c)[..k] == a + b[..m]; }
      if k == |LinTree(t)| { assert (a + b + c)[..k] == a + b + c; }
  }

  // ---------------------------------------------------------------- what the builder has been told

  /** A builder call without regard to which lexeme a token is. */
  datatype Bare = BareStart(kind: Kind) | BareToken(kind: Kind) | BareFinish

  function BareItem(it: Item): seq<Bare> {
    match it
    case Open(_) => []
    case Begin(_, kind) => [BareStart(kind)]
    case Tok(kind) => [BareToken(kind)]
    case End(_, _) => [BareFinish]
  }

  function BareItems(its: seq<Item>): seq<Bare> {
    if its == [] then [] else BareItems(its[..|its| - 1]) + BareItem(its[|its| - 1])
  }

  /** Calls that the parser asked for: lexemes it never saw are left out. */
  function BareCall(lex: seq<Lexeme>, c: Call): seq<Bare> {
    match c
    case StartNode(kind) => [BareStart(kind)]
    case AddToken(kind, at) => if at < |lex| && lex[at].kind.Trivia? then [] else [BareToken(kind)]
    case FinishNode => [BareFinish]
  }

  function BareCalls(lex: seq<Lexeme>, out: seq<Call>): seq<Bare> {
    if out == [] then [] else BareCalls(lex, out[..|out| - 1]) + BareCall(lex, out[|out| - 1])
  }

  /** The lexemes that have been put into the tree, in order. */
  function Texts(out: seq<Call>): seq<nat> {
    if out == [] then []
    else Texts(out[..|out| - 1]) + if out[|out| - 1].AddToken? then [out[|out| - 1].at] else []
  }

  /** Lexemes the parser never saw keep their kind. */
  ghost predicate TriviaKept(lex: seq<Lexeme>, out: seq<Call>) {
    forall i :: 0 <= i < |out| && out[i].AddToken? && out[i].at < |lex| && lex[out[i].at].kind.Trivia? ==>
      out[i].kind == lex[out[i].at].kind
  }

  /** Nodes entered and not left. */
  function CallDepth(out: seq<Call>): int {
    if out == [] then 0
    else
      var c := out[|out| - 1];
      CallDepth(out[..|out| - 1]) + if c.StartNode? then 1 else if c.FinishNode? then -1 else 0
  }

  /** The first call enters the root node, and every other call is made inside it. */
  ghost predicate AllInside(out: seq<Call>) {
    (out != [] ==> out[0].StartNode?) && forall i :: 0 < i < |out| ==> CallDepth(out[..i]) >= 1
  }

  lemma InsideStep(out: seq<Call>, c: Call)
    requires AllInside(out) && if out == [] then c.StartNode? else CallDepth(out) >= 1
    ensures AllInside(out + [c])
    ensures CallDepth(out + [c]) == CallDepth(out) + if c.StartNode? then 1 else if c.FinishNode? then -1 else 0
  {
    var out' := out + [c];
    assert out'[..|out|] == out;
    forall i | 0 < i < |out'| ensures CallDepth(out'[..i]) >= 1 {
      if i < |out| { assert out'[..i] == out[..i]; }
    }
  }

  function UpTo(n: nat): seq<nat> { seq(n, i => i) }

  function Problems(its: seq<Item>): seq<Problem> {
    if its == [] then []
    else
      var it := its[|its| - 1];
      Problems(its[..|its| - 1]) + if it.End? && it.error.Some? then [it.error.value] else []
  }

  function Toks(its: seq<Item>): nat {
    if its == [] then 0 else Toks(its[..|its| - 1]) + if its[|its| - 1].Tok? then 1 else 0
  }

  function Propers(lex: seq<Lexeme>): nat {
    if lex == [] then 0 else Propers(lex[..|lex| - 1]) + if lex[|lex| - 1].kind.Proper? then 1 else 0
  }

  lemma {:induction false} PropersGrow(lex: seq<Lexeme>, i: nat, j: nat)
    requires i <= j <= |lex|
    ensures Propers(lex[..i]) <= Propers(lex[..j])
    ensures Propers(lex[..i]) == Propers(lex[..j]) ==> forall k :: i <= k < j ==> lex[k].kind.Trivia?
    decreases j
  {
    if i < j {
      PropersGrow(lex, i, j - 1);
      assert lex[..j][..j - 1] == lex[..j - 1];
    }
  }

  lemma {:induction false} ToksGrow(its: seq<Item>, k: nat)
    requires k <= |its|
    ensures Toks(its[..k]) <= Toks(its)
    decreases |its|
  {
    if k < |its| {
      ToksGrow(its[..|its| - 1], k);
      assert its[..|its| - 1][..k] == its[..k];
    } else {
      assert its[..k] == its;
    }
  }

  /** The replay is at a lexeme the parser has seen, or at the end. */
  predicate AtProper(lex: seq<Lexeme>, offset: nat) { offset >= |lex| || lex[offset].kind.Proper? }

  /** What has been built after the items `done` of the whole `all`. */
  ghost predicate Built(lex: seq<Lexeme>, all: seq<Item>, done: seq<Item>, out: seq<Call>, errors: seq<Located>,
                        starts: seq<nat>, depth: int, offset: nat) {
    && done <= all && BareCalls(lex, out) == BareItems(done) && Texts(out) == UpTo(offset) && TriviaKept(lex, out)
    && CallDepth(out) == depth && AllInside(out) && (done == [] ==> out == [])
    && depth == Depth(done) && offset <= |lex| && Propers(lex[..offset]) == Toks(done)
    && (forall i :: 0 <= i < |starts| ==> starts[i] <= Pos(lex, offset))
    && |errors| == |Problems(done)|
    && (forall i :: 0 <= i < |errors| ==> errors[i].problem == Problems(done)[i] && errors[i].lo <= errors[i].hi)
  }

  /** Text position of the lexeme about to be read. */
  function Pos(lex: seq<Lexeme>, offset: nat): nat {
    if offset == 0 || lex == [] then 0 else if offset < |lex| then lex[offset].lo else lex[|lex| - 1].hi
  }

  lemma {:induction false} PosGrows(lex: seq<Lexeme>, offset: nat)
    requires Contiguous(lex) && offset < |lex|
    ensures Pos(lex, offset) <= Pos(lex, offset + 1)
  {}

  // ---------------------------------------------------------------- single steps

  lemma CallStep(lex: seq<Lexeme>, out: seq<Call>, c: Call)
    requires AllInside(out) && TriviaKept(lex, out) && if out == [] then c.StartNode? else CallDepth(out) >= 1
    requires c.AddToken? && c.at < |lex| && lex[c.at].kind.Trivia? ==> c.kind == lex[c.at].kind
    ensures BareCalls(lex, out + [c]) == BareCalls(lex, out) + BareCall(lex, c) && TriviaKept(lex, out + [c])
    ensures Texts(out + [c]) == Texts(out) + if c.AddToken? then [c.at] else []
    ensures AllInside(out + [c])
    ensures CallDepth(out + [c]) == CallDepth(out) + if c.StartNode? then 1 else if c.FinishNode? then -1 else 0
  {
    InsideStep(out, c);
    assert (out + [c])[..|out|] == out;
  }

  lemma ItemStep(all: seq<Item>, done: seq<Item>, it: Item)
    requires done <= all && |done| < |all| && all[|done|] == it
    ensures done + [it] <= all && BareItems(done + [it]) == BareItems(done) + BareItem(it)
    ensures Toks(done + [it]) == Toks(done) + if it.Tok? then 1 else 0
    ensures Depth(done + [it]) == Depth(done) + Depth([it])
    ensures Problems(done + [it]) == Problems(done) + if it.End? && it.error.Some? then [it.error.value] else []
  {
    hide BareItems, BareItem, Toks, Depth, Problems;
    DepthConcat(done, [it]);
    assert done + [it] == all[..|done| + 1];
    ItemAdds(done, it);
  }

  lemma ItemAdds(done: seq<Item>, it: Item)
    ensures BareItems(done + [it]) == BareItems(done) + BareItem(it)
    ensures Toks(done + [it]) == Toks(done) + if it.Tok? then 1 else 0
    ensures Problems(done + [it]) == Problems(done) + if it.End? && it.error.Some? then [it.error.value] else []
  {
    hide BareItem;
    assert (done + [it])[..|done|] == done;
  }

  lemma PropersNext(lex: seq<Lexeme>, offset: nat)
    requires offset < |lex|
    ensures Propers(lex[..offset + 1]) == Propers(lex[..offset]) + if lex[offset].kind.Proper? then 1 else 0
  {
    assert lex[..offset + 1][..offset] == lex[..offset];
  }

  lemma TokenStep(lex: seq<Lexeme>, all: seq<Item>, done: seq<Item>, out: seq<Call>, errors: seq<Located>, starts: seq<nat>,
                  depth: int, offset: nat, kind: Kind)
    requires Contiguous(lex) && Built(lex, all, done, out, errors, starts, depth, offset) && offset < |lex| && depth >= 1
    requires if lex[offset].kind.Trivia? then kind == lex[offset].kind else |done| < |all| && all[|done|] == Tok(kind)
    ensures var done' := if lex[offset].kind.Trivia? then done else done + [Tok(kind)];
            Built(lex, all, done', out + [AddToken(kind, offset)], errors, starts, depth, offset + 1)
  {
    hide AllInside, CallDepth, BareCalls, BareItems, Texts, TriviaKept, Toks, Depth, Problems, Pos, Contiguous, Propers;
    NothingDone(done);
    NothingSaid(out);
    CallStep(lex, out, AddToken(kind, offset));
    if lex[offset].kind.Proper? {
      ItemStep(all, done, Tok(kind));
      DepthOne(Tok(kind));
    }
    PropersNext(lex, offset);
    assert UpTo(offset + 1) == UpTo(offset) + [offset];
    PosGrows(lex, offset);
  }

  lemma NothingDone(done: seq<Item>)
    ensures done == [] ==> Depth(done) == 0
  {}

  lemma NothingSaid(out: seq<Call>)
    ensures out == [] ==> CallDepth(out) == 0
  {}

  lemma BeginStep(lex: seq<Lexeme>, all: seq<Item>, done: seq<Item>, out: seq<Call>, errors: seq<Located>, starts: seq<nat>,
                  depth: int, offset: nat, it: Item)
    requires Built(lex, all, done, out, errors, starts, depth, offset) && it.Begin? && |done| < |all| && all[|done|] == it
    requires done == [] || depth >= 1
    ensures Built(lex, all, done + [it], out + [StartNode(it.kind)], errors, starts, depth + 1, offset)
  {
    hide AllInside, CallDepth, BareCalls, BareItems, Texts, TriviaKept, Toks, Depth, Problems, Pos, Propers;
    CallStep(lex, out, StartNode(it.kind));
    ItemStep(all, done, it);
    DepthOne(it);
  }

  lemma RangeStarts(lex: seq<Lexeme>, all: seq<Item>, done: seq<Item>, out: seq<Call>, errors: seq<Located>, starts: seq<nat>,
                    depth: int, offset: nat)
    requires Built(lex, all, done, out, errors, starts, depth, offset)
    ensures Built(lex, all, done, out, errors, starts + [Pos(lex, offset)], depth, offset)
  {}

  lemma RangeEnds(lex: seq<Lexeme>, all: seq<Item>, done: seq<Item>, out: seq<Call>, errors: seq<Located>, starts: seq<nat>,
                  depth: int, offset: nat)
    requires Built(lex, all, done, out, errors, starts, depth, offset) && starts != []
    ensures starts[|starts| - 1] <= Pos(lex, offset)
  {}

  lemma EndStep(lex: seq<Lexeme>, all: seq<Item>, done: seq<Item>, out: seq<Call>, errors: seq<Located>, starts: seq<nat>,
                depth: int, offset: nat, it: Item, lo: nat, hi: nat)
    requires Built(lex, all, done, out, errors, starts, depth, offset) && it.End? && |done| < |all| && all[|done|] == it
    requires starts != [] && lo <= hi && depth >= 1
    ensures Built(lex, all, done + [it], out + [FinishNode],
                  if it.error.Some? then errors + [Located(it.error.value, lo, hi)] else errors,
                  starts[..|starts| - 1], depth - 1, offset)
  {
    hide AllInside, CallDepth, BareCalls, BareItems, Texts, TriviaKept, Toks, Depth, Problems, Pos, Propers;
    NothingSaid(out);
    CallStep(lex, out, FinishNode);
    ItemStep(all, done, it);
    DepthOne(it);
  }

  // ---------------------------------------------------------------- where trivia goes, and what errors cover

  /** The last call put in a lexeme the parser never saw. */
  predicate TriviaLast(lex: seq<Lexeme>, out: seq<Call>) {
    out != [] && out[|out| - 1].AddToken? && out[|out| - 1].at < |lex| && lex[out[|out| - 1].at].kind.Trivia?
  }

  /** But for the root, no node is entered before trivia or left after it. */
  predicate CallOk(lex: seq<Lexeme>, before: seq<Call>, c: Call) {
    && (c.StartNode? && before != [] ==> AtProper(lex, |Texts(before)|))
    && (c.FinishNode? && CallDepth(before) >= 2 ==> !TriviaLast(lex, before))
  }

  ghost predicate AllOk(lex: seq<Lexeme>, out: seq<Call>) {
    forall i :: 0 <= i < |out| ==> CallOk(lex, out[..i], out[i])
  }

  /** For each open node, the number of lexemes before it. */
  function Bases(out: seq<Call>): seq<nat> {
    if out == [] then []
    else
      var before, c := out[..|out| - 1], out[|out| - 1];
      var bs := Bases(before);
      if c.StartNode? then bs + [|Texts(before)|]
      else if c.FinishNode? && bs != [] then bs[..|bs| - 1]
      else bs
  }

  /** For each node left, in that order, the number of lexemes before it and up to its end. */
  function Spans(out: seq<Call>): seq<(nat, nat)> {
    if out == [] then []
    else
      var before, c := out[..|out| - 1], out[|out| - 1];
      var bs := Bases(before);
      Spans(before) + if c.FinishNode? && bs != [] then [(bs[|bs| - 1], |Texts(before)|)] else []
  }

  /** The errors that nodes were left with, in that order. */
  function Ends(its: seq<Item>): seq<Option<Problem>> {
    if its == [] then []
    else Ends(its[..|its| - 1]) + if its[|its| - 1].End? then [its[|its| - 1].error] else []
  }

  /** Range of the lexemes from `a` on before `b`; without lexemes it is empty and lies before the next one. */
  function Range(lex: seq<Lexeme>, span: (nat, nat)): (nat, nat) {
    if span.0 < span.1 <= |lex| then (lex[span.0].lo, lex[span.1 - 1].hi) else (Pos(lex, span.0), Pos(lex, span.0))
  }

  /** The errors among `ends`, each with the range of its node. */
  function Ranged(lex: seq<Lexeme>, ends: seq<Option<Problem>>, spans: seq<(nat, nat)>): seq<Located>
    requires |ends| == |spans|
  {
    if ends == [] then []
    else
      var n := |ends| - 1;
      var r := Range(lex, spans[n]);
      Ranged(lex, ends[..n], spans[..n]) + if ends[n].Some? then [Located(ends[n].value, r.0, r.1)] else []
  }

  function FirstProper(lex: seq<Lexeme>): (n: nat)
    ensures n <= |lex|
  {
    if lex == [] || lex[0].kind.Proper? then 0 else 1 + FirstProper(lex[1..])
  }

  /** Lexemes put in before the trivia that the calls end with. */
  function Stripped(lex: seq<Lexeme>, out: seq<Call>): nat {
    if TriviaLast(lex, out) then Stripped(lex, out[..|out| - 1]) else |Texts(out)|
  }

  /** The root's own text begins with the first proper lexeme and ends at `end`. */
  function WithRoot(lex: seq<Lexeme>, spans: seq<(nat, nat)>, depth: int, end: nat): (r: seq<(nat, nat)>)
    ensures |r| == |spans|
  {
    if depth == 0 && spans != [] then spans[|spans| - 1 := (FirstProper(lex), end)] else spans
  }

  ghost predicate StartsAt(lex: seq<Lexeme>, bases: seq<nat>, starts: seq<nat>, offset: nat) {
    && |starts| <= |bases|
    && (forall i :: 0 <= i < |bases| ==> bases[i] <= offset)
    && (starts != [] ==> starts[0] == Pos(lex, FirstProper(lex)) && FirstProper(lex) <= offset)
    && forall i :: 1 <= i < |starts| ==> starts[i] == Pos(lex, bases[i])
  }

  ghost predicate Placed(lex: seq<Lexeme>, done: seq<Item>, out: seq<Call>, errors: seq<Located>, starts: seq<nat>,
                         depth: int, offset: nat, rootEnd: nat) {
    && AllOk(lex, out) && |Bases(out)| == depth && |Ends(done)| == |Spans(out)| && StartsAt(lex, Bases(out), starts, offset)
    && errors == Ranged(lex, Ends(done), WithRoot(lex, Spans(out), depth, rootEnd))
  }

  lemma PlacedCall(lex: seq<Lexeme>, out: seq<Call>, c: Call)
    requires AllOk(lex, out) && CallOk(lex, out, c)
    ensures AllOk(lex, out + [c])
    ensures var bs := Bases(out);
            && Bases(out + [c]) == (if c.StartNode? then bs + [|Texts(out)|] else if c.FinishNode? && bs != [] then bs[..|bs| - 1] else bs)
            && Spans(out + [c]) == if c.FinishNode? && bs != [] then Spans(out) + [(bs[|bs| - 1], |Texts(out)|)] else Spans(out)
  {
    hide CallOk, Bases, Texts;
    var out' := out + [c];
    assert out'[..|out|] == out;
    forall i | 0 <= i < |out'| ensures CallOk(lex, out'[..i], out'[i]) {
      if i < |out| { assert out'[..i] == out[..i]; }
    }
    assert Bases(out') == (if c.StartNode? then Bases(out) + [|Texts(out)|]
                           else if c.FinishNode? && Bases(out) != [] then Bases(out)[..|Bases(out)| - 1] else Bases(out))
    by { BasesStep(out, c); }
  }

  lemma BasesStep(out: seq<Call>, c: Call)
    ensures var bs := Bases(out);
            Bases(out + [c]) == if c.StartNode? then bs + [|Texts(out)|] else if c.FinishNode? && bs != [] then bs[..|bs| - 1] else bs
  {
    assert (out + [c])[..|out|] == out;
  }

  lemma EndsStep(done: seq<Item>, it: Item)
    ensures Ends(done + [it]) == if it.End? then Ends(done) + [it.error] else Ends(done)
  {
    assert (done + [it])[..|done|] == done;
  }

  lemma TextsSize(out: seq<Call>, offset: nat)
    requires Texts(out) == UpTo(offset)
    ensures |Texts(out)| == offset
  {}

  /** A lexeme goes in. */
  lemma PlacedToken(lex: seq<Lexeme>, done: seq<Item>, done': seq<Item>, out: seq<Call>, errors: seq<Located>, starts: seq<nat>,
                    depth: int, offset: nat, rootEnd: nat, c: Call)
    requires Placed(lex, done, out, errors, starts, depth, offset, rootEnd) && c.AddToken?
    requires done' == done || exists kind :: done' == done + [Tok(kind)]
    ensures Placed(lex, done', out + [c], errors, starts, depth, offset + 1, rootEnd)
  {
    hide AllOk, Bases, Spans, Ends, Ranged, Texts, TriviaLast, CallDepth, FirstProper, Pos;
    PlacedCall(lex, out, c);
    if kind :| done' == done + [Tok(kind)] { EndsStep(done, Tok(kind)); }
  }

  /** A node is entered. */
  lemma PlacedBegin(lex: seq<Lexeme>, done: seq<Item>, out: seq<Call>, errors: seq<Located>, starts: seq<nat>,
                    depth: int, offset: nat, rootEnd: nat, it: Item)
    requires Placed(lex, done, out, errors, starts, depth, offset, rootEnd) && it.Begin? && Texts(out) == UpTo(offset)
    requires (out != [] ==> AtProper(lex, offset) && depth >= 1) && (out == [] ==> Spans(out) == [])
    ensures Placed(lex, done + [it], out + [StartNode(it.kind)], errors, starts, depth + 1, offset, rootEnd)
    ensures Bases(out + [StartNode(it.kind)]) == Bases(out) + [offset]
  {
    hide AllOk, Bases, Spans, Ends, Ranged, TriviaLast, CallDepth, FirstProper, Pos, AtProper, Texts;
    TextsSize(out, offset);
    PlacedCall(lex, out, StartNode(it.kind));
    EndsStep(done, it);
  }

  /** The text of the node just entered begins here. */
  lemma PlacedStart(lex: seq<Lexeme>, done: seq<Item>, out: seq<Call>, errors: seq<Located>, starts: seq<nat>,
                    depth: int, offset: nat, rootEnd: nat)
    requires Placed(lex, done, out, errors, starts, depth, offset, rootEnd) && depth == |starts| + 1
    requires if depth == 1 then offset == FirstProper(lex) else Bases(out)[depth - 1] == offset
    ensures Placed(lex, done, out, errors, starts + [Pos(lex, offset)], depth, offset, rootEnd)
  {
    hide AllOk, Bases, Spans, Ends, Ranged, FirstProper, Pos;
  }

  /** Nothing proper has been read and something proper comes next. */
  lemma {:induction false} AtFirst(lex: seq<Lexeme>, offset: nat)
    requires offset <= |lex| && Propers(lex[..offset]) == 0 && AtProper(lex, offset)
    ensures offset == FirstProper(lex)
    decreases |lex|
  {
    if offset > 0 {
      assert lex[..1] == lex[..offset][..1];
      PropersGrow(lex, 0, 1);
      PropersGrow(lex, 1, offset);
      assert lex[..1][..0] == [] && lex[..0] == [];
      DropFirst(lex, offset);
      AtFirst(lex[1..], offset - 1);
    }
  }

  lemma {:induction false} DropFirst(lex: seq<Lexeme>, k: nat)
    requires 1 <= k <= |lex|
    ensures Propers(lex[1..][..k - 1]) + Propers(lex[..1]) == Propers(lex[..k])
    decreases k
  {
    if k == 1 {
      assert lex[1..][..0] == [];
    } else {
      DropFirst(lex, k - 1);
      assert lex[1..][..k - 1] == lex[1..][..k - 2] + [lex[k - 1]] && lex[..k] == lex[..k - 1] + [lex[k - 1]];
      PropersOne(lex[1..][..k - 2], lex[k - 1]);
      PropersOne(lex[..k - 1], lex[k - 1]);
    }
  }

  lemma PropersOne(lex: seq<Lexeme>, l: Lexeme)
    ensures Propers(lex + [l]) == Propers(lex) + if l.kind.Proper? then 1 else 0
  {
    assert (lex + [l])[..|lex|] == lex;
  }

  lemma RangeIs(lex: seq<Lexeme>, a: nat, b: nat)
    requires Contiguous(lex) && a <= b <= |lex|
    ensures Range(lex, (a, b)) == (Pos(lex, a), Pos(lex, b))
  {}

  /** A node is left. */
  lemma PlacedEnd(lex: seq<Lexeme>, done: seq<Item>, out: seq<Call>, errors: seq<Located>, starts: seq<nat>,
                  depth: int, offset: nat, rootEnd: nat, it: Item, lo: nat, hi: nat)
    requires Placed(lex, done, out, errors, starts, depth, offset, rootEnd) && it.End? && Texts(out) == UpTo(offset)
    requires Contiguous(lex) && offset <= |lex| && depth == |starts| >= 1 && CallDepth(out) == depth
    requires depth >= 2 ==> !TriviaLast(lex, out) && hi == Pos(lex, offset)
    requires depth == 1 ==> FirstProper(lex) <= rootEnd <= offset && hi == Pos(lex, rootEnd)
    requires lo == starts[depth - 1]
    ensures Placed(lex, done + [it], out + [FinishNode],
                   if it.error.Some? then errors + [Located(it.error.value, lo, hi)] else errors,
                   starts[..depth - 1], depth - 1, offset, rootEnd)
  {
    hide AllOk, Bases, Spans, Ends, TriviaLast, CallDepth, FirstProper, Pos, Texts, Range, Contiguous, Ranged, StartsAt;
    TextsSize(out, offset);
    PlacedCall(lex, out, FinishNode);
    EndsStep(done, it);
    StartsLeft(lex, Bases(out), starts, offset);
    var span := if depth == 1 then (FirstProper(lex), rootEnd) else (Bases(out)[depth - 1], offset);
    RangeIs(lex, span.0, span.1);
    RangedStep(lex, Ends(done), Spans(out), it.error, span);
    RootSpan(lex, Spans(out), (Bases(out)[depth - 1], offset), depth - 1, rootEnd);
    assert errors == Ranged(lex, Ends(done), Spans(out));
    assert errors + [] == errors;
  }

  lemma StartsLeft(lex: seq<Lexeme>, bases: seq<nat>, starts: seq<nat>, offset: nat)
    requires StartsAt(lex, bases, starts, offset) && |bases| == |starts| >= 1
    ensures StartsAt(lex, bases[..|bases| - 1], starts[..|starts| - 1], offset)
    ensures bases[|bases| - 1] <= offset
    ensures starts[|starts| - 1] == Pos(lex, if |starts| == 1 then FirstProper(lex) else bases[|starts| - 1])
  {
    hide Pos, FirstProper;
  }

  lemma RootSpan(lex: seq<Lexeme>, spans: seq<(nat, nat)>, span: (nat, nat), depth: int, end: nat)
    ensures WithRoot(lex, spans + [span], depth, end) == spans + [if depth == 0 then (FirstProper(lex), end) else span]
  {
    hide FirstProper;
  }

  /** Inside the root it does not matter yet where the root ends. */
  lemma PlacedFree(lex: seq<Lexeme>, done: seq<Item>, out: seq<Call>, errors: seq<Located>, starts: seq<nat>,
                   depth: int, offset: nat, end: nat, end': nat)
    requires Placed(lex, done, out, errors, starts, depth, offset, end) && depth >= 1
    ensures Placed(lex, done, out, errors, starts, depth, offset, end')
  {
    hide AllOk, Bases, Spans, Ends, Ranged, StartsAt;
  }

  lemma Finished(lex: seq<Lexeme>, out: seq<Call>)
    ensures var o := out + [FinishNode]; o[..|o| - 1] == out && Texts(o) == Texts(out) && !TriviaLast(lex, o)
    ensures !TriviaLast(lex, out) ==> Stripped(lex, out) == |Texts(out)|
  {
    assert (out + [FinishNode])[..|out|] == out;
  }

  lemma RangedStep(lex: seq<Lexeme>, ends: seq<Option<Problem>>, spans: seq<(nat, nat)>, e: Option<Problem>, span: (nat, nat))
    requires |ends| == |spans|
    ensures var r := Range(lex, span);
            Ranged(lex, ends + [e], spans + [span]) == Ranged(lex, ends, spans) + if e.Some? then [Located(e.value, r.0, r.1)] else []
  {
    assert (ends + [e])[..|ends|] == ends && (spans + [span])[..|spans|] == spans;
  }

  // ---------------------------------------------------------------- the replay

  ghost predicate NoPending(es: seq<Event>) { forall i :: 0 <= i < |es| ==> !es[i].Pending? }

  lemma {:induction false} FlatPrefix(es: seq<Event>, k: nat, n: nat)
    requires Linked(es) && k <= n <= |es|
    ensures Flat(es, k) <= Flat(es, n)
    decreases n
  {
    hide Linked, Emit;
    if k < n { FlatPrefix(es, k, n - 1); }
  }

  /** Inside a tree something is open, and outside nothing is. */
  lemma PrefixDepth(root: Tree, done: seq<Item>)
    requires root.Branch? && done <= LinTree(root)
    ensures Depth(done) >= 0 && (Depth(done) == 0 <==> done == [] || done == LinTree(root))
  {
    assert done == LinTree(root)[..|done|];
    TreeNests(root, |done|);
  }

  lemma TokenLeft(lex: seq<Lexeme>, all: seq<Item>, done: seq<Item>, offset: nat)
    requires |done| < |all| && done <= all && all[|done|].Tok? && Toks(all) == Propers(lex)
    requires offset <= |lex| && Propers(lex[..offset]) == Toks(done) && AtProper(lex, offset)
    ensures offset < |lex| && lex[offset].kind.Proper?
  {
    ToksGrow(all, |done| + 1);
    assert all[..|done| + 1][..|done|] == done;
    assert lex[..|lex|] == lex;
  }

  lemma AllRead(lex: seq<Lexeme>, offset: nat, n: nat)
    requires offset <= |lex| && Propers(lex[..offset]) == n == Propers(lex) && AtProper(lex, offset)
    ensures offset == |lex|
  {
    PropersGrow(lex, offset, |lex|);
    assert lex[..|lex|] == lex;
  }

  class TreeSink {
    const lexemes: seq<Lexeme>
    var events: seq<Event>
    var offset: nat
    var out: seq<Call>
    var errors: seq<Located>
    /** Nodes entered and not left yet, and where the text of each begins. */
    var depth: int
    var errorStartsAt: seq<nat>
    var eatStartWhitespace: bool
    /** The record as it was, the tree it stands for, and the items replayed so far. */
    ghost const es: seq<Event>
    ghost const root: Tree
    ghost var done: seq<Item>
    /** Where the root's own text ends, once it has been left. */
    ghost var rootEnd: nat

    ghost predicate Fixed()
      reads this
    {
      && Contiguous(lexemes) && root.Branch? && Linked(es) && NoPending(es) && Meaning(es) == LinTree(root)
      && Toks(LinTree(root)) == Propers(lexemes)
    }

    ghost predicate Inv()
      reads this
    {
      && Fixed() && Built(lexemes, LinTree(root), done, out, errors, errorStartsAt, depth, offset)
      && Placed(lexemes, done, out, errors, errorStartsAt, depth, offset, rootEnd)
    }

    /** The root's text ends with the last lexeme, unless it was wrapped around what it begins with. */
    ghost predicate RootLeft()
      reads this
    {
      done != [] && depth == 0 ==>
        && out != [] && done[|done| - 1].End? && Linked(es)
        && rootEnd == if IsTarget(es, done[|done| - 1].fid) then Stripped(lexemes, out[..|out| - 1]) else |Texts(out)|
    }

    constructor (events: seq<Event>, lexemes: seq<Lexeme>, ghost root: Tree)
      requires Contiguous(lexemes) && root.Branch? && Linked(events) && NoPending(events) && Meaning(events) == LinTree(root)
      requires Toks(LinTree(root)) == Propers(lexemes)
      ensures Inv() && this.events == es == events && this.lexemes == lexemes && this.root == root && done == []
      ensures depth == 0 && offset == 0 && errorStartsAt == [] && !eatStartWhitespace && out == []
    {
      this.lexemes, this.events, this.es, this.root := lexemes, events, events, root;
      offset, out, errors, depth, errorStartsAt, eatStartWhitespace, done, rootEnd := 0, [], [], 0, [], false, [], 0;
    }

    method TextOffset() returns (p: nat)
      requires Inv()
      ensures p == Pos(lexemes, offset)
    {
      if offset == 0 { return 0; }
      if offset < |lexemes| { p := lexemes[offset].lo; } else { p := lexemes[offset - 1].hi; }
    }

    method Token(kind: Kind)
      requires Inv() && offset < |lexemes| && depth >= 1
      requires if lexemes[offset].kind.Trivia? then kind == lexemes[offset].kind
               else |done| < |LinTree(root)| && LinTree(root)[|done|] == Tok(kind)
      modifies this`out, this`offset, this`done
      ensures Inv() && offset == old(offset) + 1
      ensures done == if lexemes[old(offset)].kind.Trivia? then old(done) else old(done) + [Tok(kind)]
      ensures out == old(out) + [AddToken(kind, old(offset))]
    {
      hide Built, Placed, LinTree, Contiguous, Linked, NoPending, Toks, Propers, Meaning;
      TokenStep(lexemes, LinTree(root), done, out, errors, errorStartsAt, depth, offset, kind);
      PlacedToken(lexemes, done, if lexemes[offset].kind.Trivia? then done else done + [Tok(kind)], out, errors, errorStartsAt, depth,
                  offset, rootEnd, AddToken(kind, offset));
      done := if lexemes[offset].kind.Trivia? then done else done + [Tok(kind)];
      out := out + [AddToken(kind, offset)];
      offset := offset + 1;
    }

    method SkipWhitespace()
      requires Inv() && depth >= 1
      modifies this`out, this`offset, this`done
      ensures Inv() && done == old(done) && AtProper(lexemes, offset) && offset >= old(offset)
      ensures out != [] && Stripped(lexemes, out) == Stripped(lexemes, old(out))
    {
      hide Built, Placed, Fixed;
      SomethingSaid();
      while offset < |lexemes| && lexemes[offset].kind.Trivia?
        invariant Inv() && done == old(done) && offset >= old(offset)
        invariant out != [] && Stripped(lexemes, out) == Stripped(lexemes, old(out))
        decreases |lexemes| - offset
      {
        assert (out + [AddToken(lexemes[offset].kind, offset)])[..|out|] == out;
        Token(lexemes[offset].kind);
      }
    }

    lemma SomethingSaid()
      requires Inv() && depth >= 1
      ensures out != []
    {
      NothingSaid(out);
    }

    method BeginNode(kind: Kind, ghost it: Item)
      requires Inv() && depth == |errorStartsAt| && it.Begin? && it.kind == kind
      requires |done| < |LinTree(root)| && LinTree(root)[|done|] == it
      requires depth != 0 ==> AtProper(lexemes, offset)
      modifies this`out, this`offset, this`done, this`depth, this`errorStartsAt
      ensures Inv() && depth == |errorStartsAt| && depth == old(depth) + 1 && done == old(done) + [it] && AtProper(lexemes, offset)
      ensures depth >= 2 ==> !TriviaLast(lexemes, out)
    {
      hide Built, Placed, LinTree, Contiguous, Linked, NoPending, Toks, Propers, Meaning, Bases, AtProper;
      DepthIs();
      PrefixDepth(root, done);
      BuiltFacts();
      BeginStep(lexemes, LinTree(root), done, out, errors, errorStartsAt, depth, offset, it);
      PlacedBegin(lexemes, done, out, errors, errorStartsAt, depth, offset, rootEnd, it);
      FirstItem(done, it);
      out := out + [StartNode(kind)];
      depth := depth + 1;
      done := done + [it];
      if depth == 1 {
        SkipWhitespace();
        BuiltFacts();
        AtFirst(lexemes, offset);
      } else {
        PlacedFacts();
      }
      var p := TextOffset();
      PlacedStart(lexemes, done, out, errors, errorStartsAt, depth, offset, rootEnd);
      RangeStarts(lexemes, LinTree(root), done, out, errors, errorStartsAt, depth, offset);
      errorStartsAt := errorStartsAt + [p];
    }

    lemma BuiltFacts()
      requires Inv()
      ensures Texts(out) == UpTo(offset) && offset <= |lexemes| && (done == [] ==> out == []) && CallDepth(out) == depth
      ensures Propers(lexemes[..offset]) == Toks(done) && Contiguous(lexemes) && (out == [] ==> Spans(out) == [])
    {}

    lemma PlacedFacts()
      requires Inv()
      ensures |Bases(out)| == depth
      ensures errorStartsAt != [] ==> FirstProper(lexemes) <= offset
    {}

    lemma FirstItem(before: seq<Item>, it: Item)
      requires it.Begin?
      ensures before == [] ==> Toks(before + [it]) == 0
    {
      assert (before + [it])[..|before|] == before;
    }

    lemma DepthIs()
      requires Inv()
      ensures root.Branch? && done <= LinTree(root) && depth == Depth(done)
    {}

    /** Below the root, what was put in last is a lexeme the parser never saw. */
    ghost predicate TriviaBelow()
      reads this
    {
      depth >= 2 && TriviaLast(lexemes, out)
    }

    /** Range of the node about to be left; the flag says on which side of taking it the lexemes that
        end the root are put in. */
    method Measure(skipFirst: bool) returns (lo: nat, hi: nat)
      requires Inv() && depth == |errorStartsAt| >= 1 && !TriviaBelow() && (!skipFirst ==> !TriviaLast(lexemes, out))
      modifies this`out, this`offset, this`done, this`rootEnd
      ensures Inv() && depth == |errorStartsAt| && done == old(done) && (depth == 1 ==> AtProper(lexemes, offset))
      ensures lo == errorStartsAt[depth - 1] && lo <= hi && !TriviaBelow() && out != []
      ensures depth >= 2 ==> hi == Pos(lexemes, offset)
      ensures depth == 1 ==> FirstProper(lexemes) <= rootEnd <= offset && hi == Pos(lexemes, rootEnd)
      ensures depth == 1 ==> rootEnd == if skipFirst then offset else Stripped(lexemes, out)
    {
      hide *;
      SomethingSaid();
      if skipFirst && depth == 1 { SkipWhitespace(); }
      lo := errorStartsAt[|errorStartsAt| - 1];
      hi := TextOffset();
      PlacedFacts();
      RangeFacts();
      if depth == 1 {
        NoteEnd();
        BelowRoot();
        if !skipFirst {
          Finished(lexemes, out);
          SkipWhitespace();
          BelowRoot();
        }
      }
    }

    lemma BelowRoot()
      requires depth <= 1
      ensures !TriviaBelow()
    {}

    lemma RangeFacts()
      requires Inv() && errorStartsAt != []
      ensures errorStartsAt[|errorStartsAt| - 1] <= Pos(lexemes, offset) && |Texts(out)| == offset
    {
      hide Placed, Pos;
      TextsSize(out, offset);
    }

    /** The root's text ends here. */
    method NoteEnd()
      requires Inv() && depth >= 1
      modifies this`rootEnd
      ensures Inv() && rootEnd == offset
    {
      hide Built, Placed, LinTree, Contiguous, Linked, NoPending, Toks, Propers, Meaning;
      PlacedFree(lexemes, done, out, errors, errorStartsAt, depth, offset, rootEnd, offset);
      rootEnd := offset;
    }

    /** Leaving a node. */
    method EndNode(error: Option<Problem>, skipFirst: bool, ghost it: Item)
      requires Inv() && depth == |errorStartsAt| && it.End? && it.error == error && !TriviaBelow()
      requires |done| < |LinTree(root)| && LinTree(root)[|done|] == it && (skipFirst <==> !IsTarget(es, it.fid))
      requires !skipFirst ==> !TriviaLast(lexemes, out)
      modifies this`out, this`offset, this`done, this`depth, this`errorStartsAt, this`errors, this`rootEnd
      ensures Inv() && depth == |errorStartsAt| && depth == old(depth) - 1 && done == old(done) + [it]
      ensures depth == 0 ==> AtProper(lexemes, offset)
      ensures !TriviaLast(lexemes, out) && RootLeft()
    {
      hide Built, Placed, LinTree, Contiguous, Linked, NoPending, Toks, Propers, Meaning, FirstProper, Pos, AtProper, CallDepth, IsTarget,
           TriviaLast, Texts, Stripped;
      InsideTree(it);
      var lo, hi := Measure(skipFirst);
      BuiltFacts();
      TextsSize(out, offset);
      PlacedEnd(lexemes, done, out, errors, errorStartsAt, depth, offset, rootEnd, it, lo, hi);
      Finished(lexemes, out);
      EndStep(lexemes, LinTree(root), done, out, errors, errorStartsAt, depth, offset, it, lo, hi);
      if error.Some? { errors := errors + [Located(error.value, lo, hi)]; }
      errorStartsAt := errorStartsAt[..|errorStartsAt| - 1];
      out := out + [FinishNode];
      depth := depth - 1;
      done := done + [it];
      LinksOk();
    }

    lemma LinksOk()
      requires Inv()
      ensures Linked(es)
    {}

    lemma InsideTree(it: Item)
      requires Inv() && it.End? && |done| < |LinTree(root)| && LinTree(root)[|done|] == it
      ensures depth >= 1
    {
      PrefixDepth(root, done);
      assert LinTree(root)[0] == Begin(root.id, root.kind);
    }

    /** Follows the links of an opening outwards, blanking what they lead to. */
    method FollowOpenings(idx: nat, first: Kind, link: Option<nat>) returns (kinds: seq<Kind>, ghost its: seq<Item>)
      requires Linked(es) && NoPending(es) && idx < |es| && !IsTarget(es, idx) && es[idx] == Start(first, link)
      requires Blanking(es, events, idx, idx)
      modifies this`events
      ensures Blanked(es, events, idx + 1) && its == Openings(es, idx) && Reversed(its, kinds) && kinds != []
    {
      hide Linked, Blanking, Blanked, Reached, IsTarget, InChain, Openings, NoPending, Reversed, Outer, Next, LinkOk;
      ReversedOne(Begin(idx, first), first);
      FirstInChain(idx);
      var j, fp := idx, link;
      kinds, its := [first], [Begin(idx, first)];
      while fp.Some?
        invariant idx <= j < |es| && Blanking(es, events, idx, j) && InChain(es, idx, j) && !Reached(es, idx, j)
        invariant es[j].Start? && es[j].forwardParent == fp
        invariant Openings(es, idx) == Outer(es, j) + its && Reversed(its, kinds) && kinds != []
        decreases |es| - j
      {
        NextStart(es, j);
        var n := j + fp.value;
        BlankingOn(es, events, idx, j, n);
        InBlanking(es, events, idx, j);
        var kind, next := events[n].kind, events[n].forwardParent;
        ReversedMore(its, kinds, Begin(n, kind), kind);
        JoinItems(Outer(es, n), Begin(n, kind), its);
        events := events[n := Noop];
        kinds, fp, its, j := kinds + [kind], next, [Begin(n, kind)] + its, n;
      }
      LastStart(es, j);
      BlankingEnds(es, events, idx, j);
    }

    /** Enters the nodes of a chain of openings, outermost first. */
    method StartChain(idx: nat, first: Kind, link: Option<nat>)
      requires Inv() && depth == |errorStartsAt| && idx < |es| && !IsTarget(es, idx) && es[idx] == Start(first, link)
      requires Blanking(es, events, idx, idx) && done == Flat(es, idx)
      modifies this`events, this`out, this`offset, this`done, this`depth, this`errorStartsAt
      ensures Inv() && depth == |errorStartsAt| && Blanked(es, events, idx + 1) && done == Flat(es, idx + 1)
      ensures AtProper(lexemes, offset) && !TriviaBelow() && depth >= 1
    {
      hide Built, Placed, LinTree, Contiguous, Linked, Toks, Propers, Blanking, Blanked, IsTarget, Reversed, Flat, Openings, TriviaLast;
      DepthNat();
      if depth != 0 { SkipWhitespace(); }
      FlatPrefix(es, idx + 1, |es|);
      FirstInChain(idx);
      var kinds; ghost var its;
      kinds, its := FollowOpenings(idx, first, link);
      EnterAll(kinds, its, Flat(es, idx + 1));
    }

    /** Leaves a node, and the nodes wrapped around it in place. */
    method FinishChain(idx: nat, first: Option<Problem>, link: Option<nat>)
      requires Inv() && depth == |errorStartsAt| && idx < |es| && !IsTarget(es, idx) && es[idx] == Finish(link, first)
      requires Blanking(es, events, idx, idx) && done == Flat(es, idx) && !TriviaBelow()
      modifies this`events, this`out, this`offset, this`done, this`depth, this`errorStartsAt, this`errors, this`rootEnd
      ensures Inv() && depth == |errorStartsAt| && Blanked(es, events, idx + 1) && done == Flat(es, idx + 1)
      ensures depth == 0 ==> AtProper(lexemes, offset)
      ensures !TriviaBelow() && RootLeft()
    {
      hide Built, Placed, TriviaLast, RootLeft, LinTree, Contiguous, Toks, Propers, Blanking, Blanked, Reached, IsTarget,
           InChain, Flat, Linked, Next,
           LinkOk, AtProper, Closings, Beyond;
      FlatPrefix(es, idx + 1, |es|);
      FirstInChain(idx);
      ghost var goal := Flat(es, idx + 1);
      OneEnd(goal, done, End(idx, first), Beyond(es, idx));
      EndNode(first, true, End(idx, first));
      var j, wrapper := idx, link;
      while wrapper.Some?
        invariant Inv() && depth == |errorStartsAt| && (depth == 0 ==> AtProper(lexemes, offset))
        invariant idx <= j < |es| && Blanking(es, events, idx, j) && InChain(es, idx, j) && !Reached(es, idx, j)
        invariant es[j].Finish? && es[j].wrapper == wrapper && goal == done + Beyond(es, j)
        invariant !TriviaLast(lexemes, out) && RootLeft()
        decreases |es| - j
      {
        NextFinish(es, j);
        var n := j + wrapper.value;
        BlankingOn(es, events, idx, j, n);
        InBlanking(es, events, idx, j);
        var error, next := events[n].error, events[n].wrapper;
        events := events[n := Noop];
        assert IsTarget(es, n) by { LinkedTo(es, j, n); }
        OneEnd(goal, done, End(n, error), Beyond(es, n));
        EndNode(error, false, End(n, error));
        j, wrapper := n, next;
      }
      LastFinish(es, j);
      BlankingEnds(es, events, idx, j);
    }

    lemma LinkedTo(es: seq<Event>, j: nat, n: nat)
      requires j < |es| && Next(es, j) == Some(n)
      ensures IsTarget(es, n)
    {}

    lemma DepthNat()
      requires Inv()
      ensures depth >= 0
    {}

    lemma OneEnd(goal: seq<Item>, d: seq<Item>, it: Item, rest: seq<Item>)
      requires goal == d + ([it] + rest) && goal <= LinTree(root)
      ensures |d| < |LinTree(root)| && LinTree(root)[|d|] == it && goal == d + [it] + rest
    {
      assert goal[|d|] == it;
    }

    /** One event of the record. A pending event is never met. */
    method ReplayEvent(idx: nat)
      requires Inv() && depth == |errorStartsAt| && idx < |es| && Blanked(es, events, idx) && done == Flat(es, idx)
      requires done != [] && (depth == 0 || !eatStartWhitespace) ==> AtProper(lexemes, offset)
      requires !TriviaBelow() && RootLeft()
      modifies this
      ensures Inv() && depth == |errorStartsAt| && Blanked(es, events, idx + 1) && done == Flat(es, idx + 1)
      ensures done != [] && (depth == 0 || !eatStartWhitespace) ==> AtProper(lexemes, offset)
      ensures !TriviaBelow() && RootLeft()
    {
      hide Built, Placed, TriviaLast, Stripped, Texts, LinTree, Contiguous, Toks, Propers, Blanking, Blanked, Reached, InChain,
           Linked, Next, LinkOk, AtProper,
           Closings, Openings, Flat, IsTarget, NoPending;
      EventHere(es, events, idx);
      var e := events[idx];
      events := events[idx := Noop];
      match e {
        case Start(kind, link) =>
          StartChain(idx, kind, link);
          StillOpen();
          eatStartWhitespace := false;
        case Token(kind) =>
          TokenHere(idx, kind);
          if eatStartWhitespace { SkipWhitespace(); }
          LexemesRead();
          TokenLeft(lexemes, LinTree(root), done, offset);
          Token(kind);
          ProperLast(kind);
          StillOpen();
          eatStartWhitespace := true;
        case Finish(link, error) =>
          FinishChain(idx, error, link);
          eatStartWhitespace := true;
        case _ =>
      }
    }

    lemma StillOpen()
      requires depth >= 1
      ensures RootLeft()
    {}

    lemma ProperLast(kind: Kind)
      requires out != [] && offset > 0 && out[|out| - 1] == AddToken(kind, offset - 1)
      requires offset <= |lexemes| && lexemes[offset - 1].kind.Proper?
      ensures !TriviaLast(lexemes, out)
    {}

    lemma LexemesRead()
      requires Inv()
      ensures Toks(LinTree(root)) == Propers(lexemes) && offset <= |lexemes| && Propers(lexemes[..offset]) == Toks(done)
    {}

    lemma TokenHere(idx: nat, kind: Kind)
      requires Inv() && idx < |es| && done == Flat(es, idx) && Flat(es, idx + 1) == Flat(es, idx) + [Tok(kind)]
      ensures done != [] && |done| < |LinTree(root)| && LinTree(root)[|done|] == Tok(kind) && done <= LinTree(root)
      ensures depth > 0
    {
      hide Toks, Propers, Linked, NoPending, Flat, LinTree, BareCalls, BareItems, Texts, TriviaKept, Problems, Pos, Depth;
      FlatPrefix(es, idx + 1, |es|);
      assert LinTree(root)[|done|] == (done + [Tok(kind)])[|done|];
      PrefixDepth(root, done);
      RootFirst(root);
    }

    lemma LastOfRoot(t: Tree)
      requires t.Branch?
      ensures LinTree(t) != [] && LinTree(t)[|LinTree(t)| - 1] == End(t.fid, t.error)
    {}

    lemma RootFirst(t: Tree)
      requires t.Branch?
      ensures LinTree(t) != [] && LinTree(t)[0] == Begin(t.id, t.kind)
    {}

    /** Replays the whole record. Every node of the tree is entered and left exactly once and in
        order, every lexeme goes into the tree exactly once and in order, and a lexeme the parser never
        saw keeps its kind. */
    method Replay()
      requires Inv() && events == es && done == [] && depth == 0 && offset == 0 && errorStartsAt == [] && !eatStartWhitespace
      requires out == []
      modifies this
      ensures depth == 0 && errorStartsAt == []
      ensures BareCalls(lexemes, out) == BareItems(LinTree(root))
      ensures Texts(out) == UpTo(|lexemes|) && TriviaKept(lexemes, out) && AllInside(out) && CallDepth(out) == 0
      ensures |errors| == |Problems(LinTree(root))|
      ensures forall i :: 0 <= i < |errors| ==> errors[i].problem == Problems(LinTree(root))[i] && errors[i].lo <= errors[i].hi
      ensures AllOk(lexemes, out) && |Ends(LinTree(root))| == |Spans(out)| && out != []
      ensures rootEnd == if IsTarget(es, root.fid) then Stripped(lexemes, out[..|out| - 1]) else |lexemes|
      ensures errors == Ranged(lexemes, Ends(LinTree(root)), WithRoot(lexemes, Spans(out), 0, rootEnd))
    {
      hide *;
      NothingYet();
      var n := |events|;
      for idx := 0 to n
        invariant n == |es| && Inv() && depth == |errorStartsAt| && Blanked(es, events, idx) && done == Flat(es, idx)
        invariant done != [] && (depth == 0 || !eatStartWhitespace) ==> AtProper(lexemes, offset)
        invariant !TriviaBelow() && RootLeft()
      {
        ReplayEvent(idx);
      }
      AllReplayed();
    }

    lemma NothingYet()
      requires Inv() && events == es && done == [] && depth == 0
      ensures Linked(es) && Blanked(es, events, 0) && done == Flat(es, 0) && !TriviaBelow() && RootLeft()
    {
      hide Built, Placed, NoPending, Meaning, LinTree, Toks, Propers;
      NothingBlanked(es);
    }

    /** The whole record has been replayed. */
    lemma AllReplayed()
      requires Inv() && Linked(es) && done == Flat(es, |es|) && depth == |errorStartsAt| && RootLeft()
      requires done != [] && depth == 0 ==> AtProper(lexemes, offset)
      ensures depth == 0 && errorStartsAt == []
      ensures BareCalls(lexemes, out) == BareItems(LinTree(root))
      ensures Texts(out) == UpTo(|lexemes|) && TriviaKept(lexemes, out) && AllInside(out) && CallDepth(out) == 0
      ensures |errors| == |Problems(LinTree(root))|
      ensures forall i :: 0 <= i < |errors| ==> errors[i].problem == Problems(LinTree(root))[i] && errors[i].lo <= errors[i].hi
      ensures AllOk(lexemes, out) && |Ends(LinTree(root))| == |Spans(out)| && out != []
      ensures rootEnd == if IsTarget(es, root.fid) then Stripped(lexemes, out[..|out| - 1]) else |lexemes|
      ensures errors == Ranged(lexemes, Ends(LinTree(root)), WithRoot(lexemes, Spans(out), 0, rootEnd))
    {
      hide Flat, AtProper, Contiguous, AllOk, Ends, Spans, Ranged, WithRoot, Stripped, IsTarget, Bases, TriviaLast, StartsAt, NoPending,
           Linked, BareCalls, BareItems, Texts, TriviaKept, AllInside, CallDepth, Problems, Toks, Propers, Depth;
      PrefixDepth(root, done);
      LastOfRoot(root);
      hide LinTree;
      AllRead(lexemes, offset, Toks(done));
      TextsSize(out, offset);
    }

    lemma FirstInChain(idx: nat)
      requires Linked(es) && idx < |es| && !IsTarget(es, idx)
      ensures InChain(es, idx, idx) && !Reached(es, idx, idx)
      ensures es[idx].Start? ==> Openings(es, idx) == Outer(es, idx) + [ItemAt(es, idx)]
      ensures es[idx].Start? ==> Flat(es, idx + 1) == Flat(es, idx) + Openings(es, idx)
      ensures es[idx].Finish? ==> Closings(es, idx) == [ItemAt(es, idx)] + Beyond(es, idx)
      ensures es[idx].Finish? ==> Flat(es, idx + 1) == Flat(es, idx) + Closings(es, idx)
    {
      FirstNotReached(es, idx);
    }

    method EnterAll(kinds: seq<Kind>, ghost its: seq<Item>, ghost goal: seq<Item>)
      requires Inv() && depth == |errorStartsAt| && Reversed(its, kinds) && kinds != []
      requires goal == done + its && goal <= LinTree(root) && (depth != 0 ==> AtProper(lexemes, offset)) && depth >= 0
      modifies this`out, this`offset, this`done, this`depth, this`errorStartsAt
      ensures Inv() && depth == |errorStartsAt| && done == goal && AtProper(lexemes, offset) && !TriviaBelow() && depth >= 1
    {
      hide Built, Placed, LinTree, Contiguous, Linked, Toks, Propers, AtProper, Fixed, TriviaLast;
      var k := |kinds|;
      while k > 0
        invariant 0 <= k <= |kinds| && Inv() && depth == |errorStartsAt| && goal == done + its[|kinds| - k..]
        invariant depth != 0 || k < |kinds| ==> AtProper(lexemes, offset)
        invariant depth >= 0 && (k < |kinds| ==> !TriviaBelow() && depth >= 1)
      {
        k := k - 1;
        ghost var it := its[|kinds| - 1 - k];
        OneMore(goal, done, its, |kinds| - 1 - k);
        BeginNode(kinds[k], it);
      }
    }

    lemma OneMore(goal: seq<Item>, d: seq<Item>, its: seq<Item>, i: nat)
      requires i < |its| && goal == d + its[i..] && goal <= LinTree(root)
      ensures |d| < |LinTree(root)| && LinTree(root)[|d|] == its[i] && goal == d + [its[i]] + its[i + 1..]
    {
      assert goal[|d|] == its[i];
    }
  }

  /** The openings around event `j` of a chain. */
  ghost function Outer(es: seq<Event>, j: nat): seq<Item>
    requires Linked(es) && j < |es| && es[j].Start?
  {
    assert LinkOk(es, j);
    if Next(es, j).Some? then Openings(es, Next(es, j).value) else []
  }

  ghost function Beyond(es: seq<Event>, j: nat): seq<Item>
    requires Linked(es) && j < |es| && es[j].Finish?
  {
    assert LinkOk(es, j);
    if Next(es, j).Some? then Closings(es, Next(es, j).value) else []
  }

  /** The kinds of a chain, innermost first, against its openings, outermost first. */
  ghost predicate Reversed(its: seq<Item>, kinds: seq<Kind>) {
    |its| == |kinds| && forall i :: 0 <= i < |its| ==> its[i].Begin? && its[i].kind == kinds[|kinds| - 1 - i]
  }

  lemma ReversedOne(it: Item, kind: Kind)
    requires it.Begin? && it.kind == kind
    ensures Reversed([it], [kind])
  {}

  lemma ReversedMore(its: seq<Item>, kinds: seq<Kind>, it: Item, kind: Kind)
    requires Reversed(its, kinds) && it.Begin? && it.kind == kind
    ensures Reversed([it] + its, kinds + [kind])
  {}

  lemma JoinItems(a: seq<Item>, it: Item, b: seq<Item>)
    ensures a + [it] + b == a + ([it] + b)
  {}

  lemma LastStart(es: seq<Event>, j: nat)
    requires Linked(es) && j < |es| && es[j].Start? && es[j].forwardParent.None?
    ensures Next(es, j).None? && Outer(es, j) == [] && forall its: seq<Item> :: [] + its == its
  {}

  lemma InBlanking(es: seq<Event>, cur: seq<Event>, idx: nat, j: nat)
    requires Linked(es) && idx < |es| && Blanking(es, cur, idx, j)
    ensures |cur| == |es|
  {}

  lemma NextStart(es: seq<Event>, j: nat)
    requires Linked(es) && NoPending(es) && j < |es| && es[j].Start? && es[j].forwardParent.Some?
    ensures var n := j + es[j].forwardParent.value;
            j < n < |es| && es[n].Start? && Next(es, j) == Some(n) && Outer(es, j) == Outer(es, n) + [Begin(n, es[n].kind)]
  {
    assert LinkOk(es, j);
  }

  lemma NextFinish(es: seq<Event>, j: nat)
    requires Linked(es) && j < |es| && es[j].Finish? && es[j].wrapper.Some?
    ensures var n := j + es[j].wrapper.value;
            && j < n < |es| && es[n].Finish? && Next(es, j) == Some(n)
            && Beyond(es, j) == [End(n, es[n].error)] + Beyond(es, n)
  {
    assert LinkOk(es, j);
  }

  lemma LastFinish(es: seq<Event>, j: nat)
    requires Linked(es) && j < |es| && es[j].Finish? && es[j].wrapper.None?
    ensures Next(es, j).None? && Beyond(es, j) == []
  {}

  lemma NothingBlanked(es: seq<Event>)
    requires Linked(es)
    ensures Blanked(es, es, 0) && Flat(es, 0) == []
  {}

  /** What is left of an event when its turn comes. */
  lemma EventHere(es: seq<Event>, cur: seq<Event>, idx: nat)
    requires Linked(es) && NoPending(es) && idx < |es| && Blanked(es, cur, idx)
    ensures |cur| == |es| && !cur[idx].Pending?
    ensures !cur[idx].Noop? ==> cur[idx] == es[idx] && !IsTarget(es, idx) && Blanking(es, cur[idx := Noop], idx, idx)
    ensures cur[idx].Noop? ==> Blanked(es, cur[idx := Noop], idx + 1) && Flat(es, idx + 1) == Flat(es, idx)
    ensures cur[idx].Token? ==>
              Blanked(es, cur[idx := Noop], idx + 1) && Flat(es, idx + 1) == Flat(es, idx) + [Tok(cur[idx].kind)]
  {
    if IsTarget(es, idx) {
      TargetBlank(es, cur, idx);
      assert cur[idx := Noop] == cur;
    } else {
      BlankingStarts(es, cur, idx);
      if cur[idx].Token? || cur[idx].Noop? {
        assert InChain(es, idx, idx);
        BlankingEnds(es, cur[idx := Noop], idx, idx);
      }
    }
  }
}
