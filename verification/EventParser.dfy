/** The parser state that records events. Every operation is given by what it does to the stack of
    unfinished nodes behind the record. */
module EventParser {
  import opened Options
  import opened Events
  import opened SyntaxTrees

  /** Handle to a finished node, good for one `Precede` or `Wrap`. */
  datatype CompletedMarker = CompletedMarker(start: nat, finish: nat)

  function Tokens(es: seq<Event>): nat {
    if es == [] then 0 else Tokens(es[..|es| - 1]) + if es[|es| - 1].Token? then 1 else 0
  }

  lemma {:induction false} SameTokens(es: seq<Event>, es': seq<Event>)
    requires |es'| == |es| && forall i :: 0 <= i < |es| ==> es'[i].Token? == es[i].Token?
    ensures Tokens(es') == Tokens(es)
    decreases |es|
  {
    if es != [] { SameTokens(es[..|es| - 1], es'[..|es| - 1]); }
  }

  lemma AddedToken(es: seq<Event>, e: Event)
    ensures Tokens(es + [e]) == Tokens(es) + if e.Token? then 1 else 0
  {
    assert (es + [e])[..|es|] == es;
  }

  /** Every name is used at most once, and only names of recorded events are used. */
  ghost predicate NamedOnce(its: seq<Item>, n: nat) {
    forall x: nat :: Named(its, x) <= if x < n then 1 else 0
  }

  ghost predicate LevelsPending(es: seq<Event>, levels: seq<Level>) {
    forall i :: 0 <= i < |levels| ==> levels[i].id < |es| && es[levels[i].id].Pending?
  }

  ghost predicate FinOk(es: seq<Event>, fin: map<nat, nat>) {
    && Injective(fin)
    && forall s :: s in fin ==> s < |es| && es[s].Start? && fin[s] < |es| && es[fin[s]].Finish?
  }

  /** The record `es` says what the stack says, and the stack's nodes are where their names say. */
  ghost predicate Records(es: seq<Event>, st: Stack, fin: map<nat, nat>) {
    && Linked(es) && Meaning(es) == Read(st) && LevelsPending(es, st.levels) && NamedOnce(Read(st), |es|)
    && PairedStack(st, fin) && FinOk(es, fin)
  }

  /** The node has not been preceded or wrapped yet. */
  ghost predicate Live(es: seq<Event>, fin: map<nat, nat>, c: CompletedMarker) {
    && c.start in fin && fin[c.start] == c.finish
    && c.start < |es| && es[c.start].Start? && es[c.start].forwardParent.None?
    && c.finish < |es| && es[c.finish].Finish? && es[c.finish].wrapper.None?
  }

  /** Handles other than those in `used` stay good, and nodes that could be given up still can. */
  ghost predicate Keeps(es: seq<Event>, fin: map<nat, nat>, es': seq<Event>, fin': map<nat, nat>, used: set<nat>) {
    && |es| <= |es'|
    && (forall c :: Live(es, fin, c) && c.start !in used ==> Live(es', fin', c))
    && (forall j :: 0 <= j < |es| ==> (IsTarget(es', j) <==> IsTarget(es, j)))
  }

  class Parser {
    const kinds: seq<Kind>
    var offset: nat
    var events: seq<Event>
    var entered: nat
    ghost var stack: Stack
    ghost var fin: map<nat, nat>

    ghost predicate Valid()
      reads this
    {
      && Records(events, stack, fin) && entered == |stack.levels|
      && offset <= |kinds| && Tokens(events) == offset
    }

    constructor (kinds: seq<Kind>)
      ensures Valid() && stack == Stack([], []) && offset == 0 && this.kinds == kinds
    {
      this.kinds := kinds;
      offset, events, entered := 0, [], 0;
      stack, fin := Stack([], []), map[];
    }

    /** A node that starts here; its kind is decided later. */
    method Start() returns (m: nat)
      requires Valid()
      modifies this
      ensures Valid() && stack == Push(old(stack), m, []) && fin == old(fin) && offset == old(offset)
      ensures Keeps(old(events), old(fin), events, fin, {}) && m < |events| && !IsTarget(events, m)
    {
      m := |events|;
      StartRecords(events, stack, fin);
      AddedToken(events, Pending);
      events := events + [Pending];
      entered := entered + 1;
      stack := Push(stack, m, []);
    }

    /** The innermost unfinished node ends here. */
    method Complete(m: nat, kind: Kind, error: Option<Problem>) returns (c: CompletedMarker)
      requires Valid() && stack.levels != [] && m == stack.levels[|stack.levels| - 1].id
      modifies this
      ensures Valid() && offset == old(offset) && c.start == m
      ensures stack == WithInner(Pop(old(stack)), Inner(Pop(old(stack))) + [Branch(c.start, c.finish, kind, error, Inner(old(stack)))])
      ensures Live(events, fin, c) && fin == old(fin)[c.start := c.finish]
      ensures Keeps(old(events), old(fin), events, fin, {})
    {
      CompleteRecords(events, stack, fin, m, kind, error);
      SameTokens(events, events[m := Event.Start(kind, None)]);
      AddedToken(events[m := Event.Start(kind, None)], Finish(None, error));
      var f := |events|;
      events := events[m := Event.Start(kind, None)];
      events := events + [Finish(None, error)];
      entered := entered - 1;
      stack := WithInner(Pop(stack), Inner(Pop(stack)) + [Branch(m, f, kind, error, Inner(stack))]);
      fin := fin[m := f];
      c := CompletedMarker(m, f);
    }

    /** The innermost unfinished node turns out not to be one: its contents belong to the node around
        it. A node opened by `Precede` cannot be given up. */
    method Forget(m: nat)
      requires Valid() && stack.levels != [] && m == stack.levels[|stack.levels| - 1].id && !IsTarget(events, m)
      modifies this
      ensures Valid() && offset == old(offset) && fin == old(fin)
      ensures stack == WithInner(Pop(old(stack)), Inner(Pop(old(stack))) + Inner(old(stack)))
      ensures Keeps(old(events), old(fin), events, fin, {})
    {
      ForgetRecords(events, stack, fin, m);
      SameTokens(events, events[m := Noop]);
      events := events[m := Noop];
      entered := entered - 1;
      stack := WithInner(Pop(stack), Inner(Pop(stack)) + Inner(stack));
    }

    /** A new node that starts where the finished node `c`, the `p`-th child of the innermost
        unfinished node, starts, and so contains everything since then. */
    method Precede(c: CompletedMarker, ghost p: nat) returns (m: nat)
      requires Valid() && Live(events, fin, c)
      requires p < |Inner(stack)| && Inner(stack)[p].Branch? && Inner(stack)[p].id == c.start
      modifies this
      ensures Valid() && offset == old(offset) && fin == old(fin)
      ensures stack == Push(WithInner(old(stack), Inner(old(stack))[..p]), m, Inner(old(stack))[p..])
      ensures Keeps(old(events), old(fin), events, fin, {c.start})
    {
      PrecedeRecords(events, stack, fin, c, p);
      m := |events|;
      SameTokens(events, events[c.start := events[c.start].(forwardParent := Some(m - c.start))]);
      AddedToken(events[c.start := events[c.start].(forwardParent := Some(m - c.start))], Pending);
      stack := Push(WithInner(stack, Inner(stack)[..p]), m, Inner(stack)[p..]);
      events := events[c.start := events[c.start].(forwardParent := Some(m - c.start))] + [Pending];
      entered := entered + 1;
    }

    /** A new node around the finished node `c` and everything after it. */
    method WrapToHere(c: CompletedMarker, ghost p: nat, kind: Kind, error: Option<Problem>) returns (w: CompletedMarker)
      requires Valid() && Live(events, fin, c)
      requires p < |Inner(stack)| && Inner(stack)[p].Branch? && Inner(stack)[p].id == c.start
      modifies this
      ensures Valid() && offset == old(offset) && Live(events, fin, w)
      ensures stack == WithInner(old(stack), Inner(old(stack))[..p]
                                             + [Branch(w.start, w.finish, kind, error, Inner(old(stack))[p..])])
    {
      hide Records, Live, Keeps, Tokens;
      var m := Precede(c, p);
      PopPush(old(stack), p, m);
      w := Complete(m, kind, error);
    }

    lemma PopPush(st: Stack, p: nat, m: nat)
      requires p < |Inner(st)|
      ensures var st0 := WithInner(st, Inner(st)[..p]);
              var st1 := Push(st0, m, Inner(st)[p..]);
              && st1.levels != [] && m == st1.levels[|st1.levels| - 1].id && Pop(st1) == st0 && Inner(st1) == Inner(st)[p..]
              && Inner(st0) == Inner(st)[..p] && forall kids :: WithInner(st0, kids) == WithInner(st, kids)
    {}

    /** A new node around the finished node `c` alone, wherever that is by now. */
    method Wrap(c: CompletedMarker, kind: Kind, error: Option<Problem>) returns (w: CompletedMarker)
      requires Valid() && Live(events, fin, c)
      modifies this
      ensures Valid() && offset == old(offset) && Live(events, fin, w) && fin == old(fin)[w.start := w.finish]
      ensures stack == Wrapping(old(stack), Edit.Wrap(c.start, c.finish, w.start, w.finish, kind, error))
      ensures Keeps(old(events), old(fin), events, fin, {c.start})
    {
      hide Records, Keeps, Tokens;
      WrapRecords(events, stack, fin, c, kind, error);
      WrappedTokens(events, c.start, c.finish, kind, error);
      var n := |events|;
      ghost var es := events;
      events := events[c.start := events[c.start].(forwardParent := Some(n - c.start))];
      events := events + [Event.Start(kind, None)] + [Finish(None, error)];
      events := events[c.finish := events[c.finish].(wrapper := Some(n + 1 - c.finish))];
      assert events == Wrapped(es, c.start, c.finish, kind, error);
      stack := Wrapping(stack, Edit.Wrap(c.start, c.finish, n, n + 1, kind, error));
      fin := fin[n := n + 1];
      w := CompletedMarker(n, n + 1);
    }

    /** The next lexeme goes into the innermost unfinished node, perhaps under another kind. */
    method BumpRemap(kind: Kind)
      requires Valid() && offset < |kinds|
      modifies this
      ensures Valid() && offset == old(offset) + 1 && fin == old(fin)
      ensures stack == WithInner(old(stack), Inner(old(stack)) + [Leaf(kind)])
      ensures Keeps(old(events), old(fin), events, fin, {})
    {
      TokenRecords(events, stack, fin, kind);
      AddedToken(events, Token(kind));
      events := events + [Token(kind)];
      offset := offset + 1;
      stack := WithInner(stack, Inner(stack) + [Leaf(kind)]);
    }
  }

  // ---------------------------------------------------------------- what each operation keeps

  lemma KeptAppend(es: seq<Event>, fin: map<nat, nat>, e: Event, fin': map<nat, nat>)
    requires Linked(es) && Loose(e) && forall s :: s in fin ==> s in fin' && fin'[s] == fin[s]
    ensures Keeps(es, fin, es + [e], fin', {})
  {
    AppendLinked(es, e);
  }

  lemma NamedMore(its: seq<Item>, it: Item, n: nat)
    requires NamedOnce(its, n) && (it.Open? || it.Begin? ==> it.id == n)
    ensures NamedOnce(its + [it], n + 1)
  {
    forall x: nat ensures Named(its + [it], x) <= if x < n + 1 then 1 else 0 {
      CountConcat(its, [it], x);
      CountOne(it, x);
    }
  }

  lemma NamedEdited(its: seq<Item>, ed: Edit, n: nat)
    requires NamedOnce(its, n) && (ed.Precede? || ed.Wrap? ==> ed.n == n)
    ensures ed.Precede? || ed.Wrap? ==> NamedOnce(EditAll(ed, its), n + 1)
    ensures ed.SetKind? || ed.Drop? ==> NamedOnce(EditAll(ed, its), n)
  {
    forall x: nat
      ensures Named(EditAll(ed, its), x) <= if x < (if ed.Precede? || ed.Wrap? then n + 1 else n) then 1 else 0
    {
      EditNamed(ed, its, x);
      if ed.Precede? || ed.Wrap? { BegunNamed(its, ed.s); }
    }
  }

  lemma StartRecords(es: seq<Event>, st: Stack, fin: map<nat, nat>)
    requires Records(es, st, fin)
    ensures Records(es + [Pending], Push(st, |es|, []), fin) && !IsTarget(es + [Pending], |es|)
    ensures Keeps(es, fin, es + [Pending], fin, {})
  {
    hide LinStack, Lin, Flat, Paired, NamedOnce;
    var n := |es|;
    Appended(es, Pending);
    AppendLinked(es, Pending);
    KeptAppend(es, fin, Pending, fin);
    ReadPush(st, n, []);
    NamedMore(Read(st), Open(n), n);
    PairedNone(fin);
    assert Read(st) + [Open(n)] + [] == Read(st) + [Open(n)];
  }

  lemma PairedNone(fin: map<nat, nat>)
    ensures Paired([], fin) && Lin([]) == []
  {}

  lemma TokenRecords(es: seq<Event>, st: Stack, fin: map<nat, nat>, kind: Kind)
    requires Records(es, st, fin)
    ensures Records(es + [Token(kind)], WithInner(st, Inner(st) + [Leaf(kind)]), fin)
    ensures Keeps(es, fin, es + [Token(kind)], fin, {})
  {
    hide LinStack, Lin, Flat, Paired, NamedOnce;
    Appended(es, Token(kind));
    KeptAppend(es, fin, Token(kind), fin);
    ReadInner(st, [Leaf(kind)]);
    LinOne(Leaf(kind));
    NamedMore(Read(st), Tok(kind), |es|);
    PairedAdd(Inner(st), Leaf(kind), fin);
  }

  lemma CompleteRecords(es: seq<Event>, st: Stack, fin: map<nat, nat>, m: nat, kind: Kind, error: Option<Problem>)
    requires Records(es, st, fin) && st.levels != [] && m == st.levels[|st.levels| - 1].id
    ensures var es', fin' := es[m := Event.Start(kind, None)] + [Finish(None, error)], fin[m := |es|];
            && Records(es', WithInner(Pop(st), Inner(Pop(st)) + [Branch(m, |es|, kind, error, Inner(st))]), fin')
            && Live(es', fin', CompletedMarker(m, |es|)) && Keeps(es, fin, es', fin', {})
  {
    hide LinStack, Lin, EditAll, Flat, Paired, NamedOnce;
    var es1, e := es[m := Event.Start(kind, None)], Finish(None, error);
    var fin', t := fin[m := |es|], Branch(m, |es|, kind, error, Inner(st));
    var st' := WithInner(Pop(st), Inner(Pop(st)) + [t]);
    NamedLevel(es, st, fin, m);
    SetKindMeaning(es, m, kind);
    PatchSame(es, m, Event.Start(kind, None));
    Appended(es1, e);
    AppendLinked(es1, e);
    CompleteRead(st, m, |es|, kind, error);
    OtherLevels(es, st, fin, m);
    NamedEdited(Read(st), SetKind(m, kind), |es|);
    NamedMore(EditAll(SetKind(m, kind), Read(st)), End(|es|, error), |es|);
    CompletedPaired(st, fin, t);
  }

  lemma NamedLevel(es: seq<Event>, st: Stack, fin: map<nat, nat>, m: nat)
    requires Records(es, st, fin)
    ensures Named(Read(st), m) <= 1
  {}

  lemma CompletedPaired(st: Stack, fin: map<nat, nat>, t: Tree)
    requires PairedStack(st, fin) && st.levels != [] && t.Branch? && t.kids == Inner(st) && t.id !in fin
    ensures PairedStack(WithInner(Pop(st), Inner(Pop(st)) + [t]), fin[t.id := t.fid])
  {
    hide Paired;
    var fin' := fin[t.id := t.fid];
    PairedMore(st.base, fin, fin');
    forall i | 0 <= i < |st.levels| ensures Paired(st.levels[i].kids, fin') { PairedMore(st.levels[i].kids, fin, fin'); }
    PairedAdd(Inner(Pop(st)), t, fin');
  }

  lemma PairedAdd(ts: seq<Tree>, t: Tree, fin: map<nat, nat>)
    requires Paired(ts, fin) && PairedTree(t, fin)
    ensures Paired(ts + [t], fin)
  {}

  lemma PairedJoin(a: seq<Tree>, b: seq<Tree>, fin: map<nat, nat>)
    ensures Paired(a + b, fin) <==> Paired(a, fin) && Paired(b, fin)
  {
    if Paired(a + b, fin) {
      forall i | 0 <= i < |a| ensures PairedTree(a[i], fin) { assert (a + b)[i] == a[i]; }
      forall i | 0 <= i < |b| ensures PairedTree(b[i], fin) { assert (a + b)[|a| + i] == b[i]; }
    }
  }

  lemma ForgetRecords(es: seq<Event>, st: Stack, fin: map<nat, nat>, m: nat)
    requires Records(es, st, fin) && st.levels != [] && m == st.levels[|st.levels| - 1].id && !IsTarget(es, m)
    ensures Records(es[m := Noop], WithInner(Pop(st), Inner(Pop(st)) + Inner(st)), fin) && Keeps(es, fin, es[m := Noop], fin, {})
  {
    hide LinStack, Lin, EditAll, Flat, Paired, NamedOnce;
    NamedLevel(es, st, fin, m);
    DropMeaning(es, m);
    PatchSame(es, m, Noop);
    ForgetRead(st, m);
    OtherLevels(es, st, fin, m);
    NamedEdited(Read(st), Drop(m), |es|);
    PairedJoin(Inner(Pop(st)), Inner(st), fin);
  }

  /** Unfinished nodes have different names. */
  lemma OtherLevels(es: seq<Event>, st: Stack, fin: map<nat, nat>, m: nat)
    requires Records(es, st, fin) && st.levels != [] && m == st.levels[|st.levels| - 1].id
    ensures forall i :: 0 <= i < |st.levels| - 1 ==> st.levels[i].id != m
  {
    hide LinStack, Lin, Flat, Paired, Linked;
    NamedLevel(es, st, fin, m);
    forall i | 0 <= i < |st.levels| - 1 ensures st.levels[i].id != m {
      LevelNamed(Pop(st), i);
      SplitNamed(st, m);
    }
  }

  lemma SplitNamed(st: Stack, x: nat)
    requires st.levels != []
    ensures var id := st.levels[|st.levels| - 1].id;
            Named(Read(st), x) == Named(Read(Pop(st)), x) + (if id == x then 1 else 0) + Named(Lin(Inner(st)), x)
  {
    hide Named, Lin, LinStack;
    var id := st.levels[|st.levels| - 1].id;
    ReadPop(st);
    CountConcat(Read(Pop(st)) + [Open(id)], Lin(Inner(st)), x);
    CountConcat(Read(Pop(st)), [Open(id)], x);
    CountOne(Open(id), x);
  }

  lemma {:induction false} LevelNamed(st: Stack, i: nat)
    requires i < |st.levels|
    ensures Named(Read(st), st.levels[i].id) >= 1
    decreases |st.levels|
  {
    hide Named, Lin, LinStack;
    SplitNamed(st, st.levels[i].id);
    if i < |st.levels| - 1 { LevelNamed(Pop(st), i); }
  }

  lemma RecordsParts(es: seq<Event>, st: Stack, fin: map<nat, nat>)
    requires Records(es, st, fin)
    ensures Linked(es) && Meaning(es) == Read(st) && LevelsPending(es, st.levels) && NamedOnce(Read(st), |es|)
    ensures PairedStack(st, fin) && FinOk(es, fin) && Injective(fin) && forall x :: Named(Read(st), x) <= 1
  {}

  lemma RecordsWhole(es: seq<Event>, st: Stack, fin: map<nat, nat>)
    requires Linked(es) && Meaning(es) == Read(st) && LevelsPending(es, st.levels) && NamedOnce(Read(st), |es|)
    requires PairedStack(st, fin) && FinOk(es, fin)
    ensures Records(es, st, fin)
  {}

  lemma PrecededIsPatched(es: seq<Event>, fin: map<nat, nat>, c: CompletedMarker)
    requires Live(es, fin, c)
    ensures var es' := Preceded(es, c.start);
            && |es'| == |es| + 1 && es'[|es|].Pending?
            && Patched(es, es', c.start, None) && Describes(Precede(c.start, |es|), es, es', c.start, None)
  {}

  lemma PrecedeRecords(es: seq<Event>, st: Stack, fin: map<nat, nat>, c: CompletedMarker, p: nat)
    requires Records(es, st, fin) && Live(es, fin, c)
    requires p < |Inner(st)| && Inner(st)[p].Branch? && Inner(st)[p].id == c.start
    ensures Records(Preceded(es, c.start), Push(WithInner(st, Inner(st)[..p]), |es|, Inner(st)[p..]), fin)
    ensures Keeps(es, fin, Preceded(es, c.start), fin, {c.start})
  {
    hide *;
    RecordsParts(es, st, fin);
    PrecededIsPatched(es, fin, c);
    var s, es', st' := c.start, Preceded(es, c.start), Push(WithInner(st, Inner(st)[..p]), |es|, Inner(st)[p..]);
    PatchKeeps(es, fin, es', fin, c, None);
    PatchSorts(es, fin, st, es', s, None);
    PatchedMeaning(es, es', s, None, Precede(s, |es|));
    PrecedeRead(st, p, |es|);
    NamedEdited(Read(st), Precede(s, |es|), |es|);
    PrecedePaired(st, fin, p, |es|);
    PrecededLevels(es', st, p, |es|);
    RecordsWhole(es', st', fin);
  }

  lemma PrecededLevels(es: seq<Event>, st: Stack, p: nat, n: nat)
    requires p <= |Inner(st)| && LevelsPending(es, st.levels) && n < |es| && es[n].Pending?
    ensures LevelsPending(es, Push(WithInner(st, Inner(st)[..p]), n, Inner(st)[p..]).levels)
  {}

  lemma PrecedePaired(st: Stack, fin: map<nat, nat>, p: nat, n: nat)
    requires PairedStack(st, fin) && p < |Inner(st)|
    ensures PairedStack(Push(WithInner(st, Inner(st)[..p]), n, Inner(st)[p..]), fin)
  {
    hide Paired;
    assert Inner(st) == Inner(st)[..p] + Inner(st)[p..];
    PairedJoin(Inner(st)[..p], Inner(st)[p..], fin);
  }

  lemma WrappedIsPatched(es: seq<Event>, fin: map<nat, nat>, c: CompletedMarker, kind: Kind, error: Option<Problem>)
    requires Live(es, fin, c)
    ensures var es' := Wrapped(es, c.start, c.finish, kind, error);
            && c.start in fin && fin[c.start] == c.finish
            && |es'| == |es| + 2 && es'[|es|] == Event.Start(kind, None) && es'[|es| + 1] == Finish(None, error)
            && Patched(es, es', c.start, Some(c.finish))
            && Describes(Edit.Wrap(c.start, c.finish, |es|, |es| + 1, kind, error), es, es', c.start, Some(c.finish))
  {}

  /** Patching leaves other handles alone. */
  lemma PatchKeeps(es: seq<Event>, fin: map<nat, nat>, es': seq<Event>, fin': map<nat, nat>, c: CompletedMarker, f: Option<nat>)
    requires Linked(es) && Live(es, fin, c) && FinOk(es, fin) && Patched(es, es', c.start, f) && (f.Some? ==> f.value == c.finish)
    requires forall s :: s in fin ==> s in fin' && fin'[s] == fin[s]
    ensures Keeps(es, fin, es', fin', {c.start})
  {
    PatchedLinks(es, es', c.start, f);
    hide Linked;
  }

  /** Patching changes no event's sort. */
  lemma PatchSorts(es: seq<Event>, fin: map<nat, nat>, st: Stack, es': seq<Event>, s: nat, f: Option<nat>)
    requires Patched(es, es', s, f) && FinOk(es, fin) && LevelsPending(es, st.levels)
    ensures FinOk(es', fin) && LevelsPending(es', st.levels)
  {}

  lemma WrapRecords(es: seq<Event>, st: Stack, fin: map<nat, nat>, c: CompletedMarker, kind: Kind, error: Option<Problem>)
    requires Records(es, st, fin) && Live(es, fin, c)
    ensures var n, es' := |es|, Wrapped(es, c.start, c.finish, kind, error);
            && Records(es', Wrapping(st, Edit.Wrap(c.start, c.finish, n, n + 1, kind, error)), fin[n := n + 1])
            && Live(es', fin[n := n + 1], CompletedMarker(n, n + 1)) && Keeps(es, fin, es', fin[n := n + 1], {c.start})
  {
    hide *;
    WrappedIsPatched(es, fin, c, kind, error);
    RecordsParts(es, st, fin);
    var s, f, n, es' := c.start, c.finish, |es|, Wrapped(es, c.start, c.finish, kind, error);
    var ed, fin', st' := Edit.Wrap(s, f, n, n + 1, kind, error), fin[n := n + 1], Wrapping(st, Edit.Wrap(s, f, n, n + 1, kind, error));
    NotYet(es, fin);
    PatchKeeps(es, fin, es', fin', c, Some(f));
    PatchSorts(es, fin, st, es', s, Some(f));
    FreshPair(es', fin, n);
    PatchedMeaning(es, es', s, Some(f), ed);
    WrapRead(st, ed, fin);
    NamedEdited(Read(st), ed, n);
    NamedWider(EditAll(ed, Read(st)), n + 1);
    WrappedPaired(st, fin, ed);
    WrappedLevels(es', st, ed);
    RecordsWhole(es', st', fin');
    WrapLive(es', fin', n);
  }

  lemma WrapLive(es: seq<Event>, fin: map<nat, nat>, n: nat)
    requires n + 1 < |es| && es[n].Start? && es[n].forwardParent.None? && es[n + 1].Finish? && es[n + 1].wrapper.None?
    requires n in fin && fin[n] == n + 1
    ensures Live(es, fin, CompletedMarker(n, n + 1))
  {}

  lemma NotYet(es: seq<Event>, fin: map<nat, nat>)
    requires FinOk(es, fin)
    ensures |es| !in fin && forall s :: s in fin ==> fin[s] < |es|
  {}

  lemma FreshPair(es: seq<Event>, fin: map<nat, nat>, n: nat)
    requires FinOk(es, fin) && n + 1 < |es| && es[n].Start? && es[n + 1].Finish?
    requires forall s :: s in fin ==> fin[s] < n + 1
    ensures FinOk(es, fin[n := n + 1])
  {}

  lemma WrappedLevels(es: seq<Event>, st: Stack, ed: Edit)
    requires ed.Wrap? && LevelsPending(es, st.levels)
    ensures LevelsPending(es, Wrapping(st, ed).levels)
  {}

  lemma NamedWider(its: seq<Item>, n: nat)
    requires NamedOnce(its, n)
    ensures NamedOnce(its, n + 1)
  {}

  lemma WrappedPaired(st: Stack, fin: map<nat, nat>, ed: Edit)
    requires ed.Wrap? && PairedStack(st, fin) && ed.n !in fin
    ensures PairedStack(Wrapping(st, ed), fin[ed.n := ed.m])
  {
    hide Paired, WrapIn;
    var fin' := fin[ed.n := ed.m];
    WrapPaired(st.base, ed, fin, fin');
    forall i | 0 <= i < |st.levels| ensures Paired(Wrapping(st, ed).levels[i].kids, fin') {
      WrapPaired(st.levels[i].kids, ed, fin, fin');
    }
  }

  lemma WrappedTokens(es: seq<Event>, s: nat, f: nat, kind: Kind, error: Option<Problem>)
    requires s < |es| && es[s].Start? && f < |es| && es[f].Finish?
    ensures Tokens(Wrapped(es, s, f, kind, error)) == Tokens(es)
  {
    hide Tokens;
    var es1 := es[s := es[s].(forwardParent := Some(|es| - s))][f := es[f].(wrapper := Some(|es| + 1 - f))];
    SameTokens(es, es1);
    AddedToken(es1, Event.Start(kind, None));
    AddedToken(es1 + [Event.Start(kind, None)], Finish(None, error));
    assert Wrapped(es, s, f, kind, error) == es1 + [Event.Start(kind, None)] + [Finish(None, error)];
  }
}
