/** The parser's side of the event record: markers that open, finish, precede, wrap and give up
    nodes. Behind the record stands a stack of unfinished nodes with the trees built so far. */
module SyntaxTrees {
  import opened Options
  import opened Events

  datatype Tree = Leaf(kind: Kind) | Branch(id: nat, fid: nat, kind: Kind, error: Option<Problem>, kids: seq<Tree>)

  /** An unfinished node and what has been put into it so far. */
  datatype Level = Level(id: nat, kids: seq<Tree>)

  function Lin(ts: seq<Tree>): seq<Item>
    decreases ts, 0
  {
    if ts == [] then [] else Lin(ts[..|ts| - 1]) + LinTree(ts[|ts| - 1])
  }

  /** A tree read from left to right: perfectly nested by construction. */
  function LinTree(t: Tree): seq<Item>
    decreases t, 1
  {
    match t
    case Leaf(kind) => [Tok(kind)]
    case Branch(id, fid, kind, error, kids) => [Begin(id, kind)] + Lin(kids) + [End(fid, error)]
  }

  function LinStack(base: seq<Tree>, levels: seq<Level>): seq<Item>
    decreases |levels|
  {
    if levels == [] then Lin(base)
    else
      var l := levels[|levels| - 1];
      LinStack(base, levels[..|levels| - 1]) + [Open(l.id)] + Lin(l.kids)
  }

  lemma {:induction false} LinConcat(a: seq<Tree>, b: seq<Tree>)
    ensures Lin(a + b) == Lin(a) + Lin(b)
    decreases |b|
  {
    if b == [] {
      assert a + b == a;
    } else {
      assert (a + b)[..|a + b| - 1] == a + b[..|b| - 1];
      LinConcat(a, b[..|b| - 1]);
    }
  }

  lemma LinOne(t: Tree)
    ensures Lin([t]) == LinTree(t)
  {
    assert [t][..0] == [];
  }

  // ---------------------------------------------------------------- names of nodes

  function Names1(it: Item, x: nat): nat { if (it.Open? || it.Begin?) && it.id == x then 1 else 0 }

  function Begins1(it: Item, x: nat): nat { if it.Begin? && it.id == x then 1 else 0 }

  /** How often node `x` is opened, finished or not. */
  function Named(its: seq<Item>, x: nat): nat {
    if its == [] then 0 else Named(its[..|its| - 1], x) + Names1(its[|its| - 1], x)
  }

  /** How often finished node `x` begins. */
  function Begun(its: seq<Item>, x: nat): nat {
    if its == [] then 0 else Begun(its[..|its| - 1], x) + Begins1(its[|its| - 1], x)
  }

  lemma {:induction false} CountConcat(a: seq<Item>, b: seq<Item>, x: nat)
    ensures Named(a + b, x) == Named(a, x) + Named(b, x) && Begun(a + b, x) == Begun(a, x) + Begun(b, x)
    decreases |b|
  {
    if b == [] {
      assert a + b == a;
    } else {
      assert (a + b)[..|a + b| - 1] == a + b[..|b| - 1];
      CountConcat(a, b[..|b| - 1], x);
    }
  }

  lemma CountOne(it: Item, x: nat)
    ensures Named([it], x) == Names1(it, x) && Begun([it], x) == Begins1(it, x)
  {
    assert [it][..0] == [];
  }

  lemma CountTwo(a: Item, b: Item, x: nat)
    ensures Named([a, b], x) == Names1(a, x) + Names1(b, x)
  {
    assert [a, b] == [a] + [b];
    CountConcat([a], [b], x);
    CountOne(a, x);
    CountOne(b, x);
  }

  lemma {:induction false} BegunNamed(its: seq<Item>, x: nat)
    ensures Begun(its, x) <= Named(its, x)
    decreases |its|
  {
    if its != [] { BegunNamed(its[..|its| - 1], x); }
  }

  lemma EditedNamed(ed: Edit, it: Item, x: nat)
    ensures ed.Precede? || ed.Wrap? ==>
              Named(Edited(ed, it), x) == Names1(it, x) + if x == ed.n then Begins1(it, ed.s) else 0
    ensures ed.SetKind? ==> Named(Edited(ed, it), x) == Names1(it, x)
    ensures ed.Drop? ==> Named(Edited(ed, it), x) <= Names1(it, x)
  {
    var r := Edited(ed, it);
    if |r| == 1 { CountOne(r[0], x); }
    if |r| == 2 { CountTwo(r[0], r[1], x); }
  }

  /** An edit names at most one node more than before, and that as often as the node it is put
      around begins. */
  lemma {:induction false} EditNamed(ed: Edit, its: seq<Item>, x: nat)
    ensures ed.Precede? || ed.Wrap? ==>
              Named(EditAll(ed, its), x) == Named(its, x) + if x == ed.n then Begun(its, ed.s) else 0
    ensures ed.SetKind? || ed.Drop? ==> Named(EditAll(ed, its), x) <= Named(its, x)
    decreases |its|
  {
    if its != [] {
      var init, it := its[..|its| - 1], its[|its| - 1];
      EditNamed(ed, init, x);
      CountConcat(EditAll(ed, init), Edited(ed, it), x);
      EditedNamed(ed, it, x);
    }
  }

  // ---------------------------------------------------------------- edits on trees

  /** Which closing belongs to which node. */
  ghost predicate Paired(ts: seq<Tree>, fin: map<nat, nat>)
    decreases ts, 0
  {
    forall i :: 0 <= i < |ts| ==> PairedTree(ts[i], fin)
  }

  ghost predicate PairedTree(t: Tree, fin: map<nat, nat>)
    decreases t, 1
  {
    t.Branch? ==> t.id in fin && fin[t.id] == t.fid && Paired(t.kids, fin)
  }

  ghost predicate Injective(fin: map<nat, nat>) {
    forall a, b :: a in fin && b in fin && fin[a] == fin[b] ==> a == b
  }

  /** Node `s` replaced by a new node with `s` as its only child. */
  function WrapIn(ts: seq<Tree>, ed: Edit): (r: seq<Tree>)
    requires ed.Wrap?
    ensures |r| == |ts|
    decreases ts, 0
  {
    if ts == [] then [] else WrapIn(ts[..|ts| - 1], ed) + [WrapInTree(ts[|ts| - 1], ed)]
  }

  function WrapInTree(t: Tree, ed: Edit): Tree
    requires ed.Wrap?
    decreases t, 1
  {
    match t
    case Leaf(_) => t
    case Branch(id, fid, kind, error, kids) =>
      var t' := Branch(id, fid, kind, error, WrapIn(kids, ed));
      if id == ed.s then Branch(ed.n, ed.m, ed.kind, ed.error, [t']) else t'
  }

  lemma {:induction false} WrapLin(ts: seq<Tree>, ed: Edit, fin: map<nat, nat>)
    requires ed.Wrap? && Paired(ts, fin) && Injective(fin) && ed.s in fin && fin[ed.s] == ed.f
    ensures Lin(WrapIn(ts, ed)) == EditAll(ed, Lin(ts))
    decreases ts, 0
  {
    if ts != [] {
      var init, t := ts[..|ts| - 1], ts[|ts| - 1];
      WrapLin(init, ed, fin);
      WrapLinTree(t, ed, fin);
      EditConcat(ed, Lin(init), LinTree(t));
      assert WrapIn(ts, ed)[..|ts| - 1] == WrapIn(init, ed);
    }
  }

  lemma {:induction false} WrapLinTree(t: Tree, ed: Edit, fin: map<nat, nat>)
    requires ed.Wrap? && PairedTree(t, fin) && Injective(fin) && ed.s in fin && fin[ed.s] == ed.f
    ensures LinTree(WrapInTree(t, ed)) == EditAll(ed, LinTree(t))
    decreases t, 1
  {
    match t
    case Leaf(kind) => EditOne(ed, Tok(kind));
    case Branch(id, fid, kind, error, kids) =>
      WrapLin(kids, ed, fin);
      BranchEdited(t, ed);
      assert id == ed.s <==> fid == ed.f;
      WrapLinBranch(t, ed);
  }

  lemma WrapLinBranch(t: Tree, ed: Edit)
    requires ed.Wrap? && t.Branch? && (t.id == ed.s <==> t.fid == ed.f)
    ensures LinTree(WrapInTree(t, ed)) ==
            Edited(ed, Begin(t.id, t.kind)) + Lin(WrapIn(t.kids, ed)) + Edited(ed, End(t.fid, t.error))
  {
    hide Lin, WrapIn;
    var a, c, t' := Begin(t.id, t.kind), End(t.fid, t.error), Branch(t.id, t.fid, t.kind, t.error, WrapIn(t.kids, ed));
    LinOne(t');
    var x := Lin(WrapIn(t.kids, ed));
    assert [Begin(ed.n, ed.kind)] + ([a] + x + [c]) + [End(ed.m, ed.error)]
        == [Begin(ed.n, ed.kind), a] + x + [c, End(ed.m, ed.error)];
  }

  lemma BranchEdited(t: Tree, ed: Edit)
    requires t.Branch?
    ensures EditAll(ed, LinTree(t)) == Edited(ed, Begin(t.id, t.kind)) + EditAll(ed, Lin(t.kids)) + Edited(ed, End(t.fid, t.error))
  {
    hide EditAll, Edited;
    var a, c := Begin(t.id, t.kind), End(t.fid, t.error);
    EditOne(ed, a);
    EditOne(ed, c);
    EditConcat(ed, [a], Lin(t.kids));
    EditConcat(ed, [a] + Lin(t.kids), [c]);
  }

  lemma {:induction false} WrapPaired(ts: seq<Tree>, ed: Edit, fin: map<nat, nat>, fin': map<nat, nat>)
    requires ed.Wrap? && Paired(ts, fin) && ed.n !in fin && fin' == fin[ed.n := ed.m]
    ensures Paired(WrapIn(ts, ed), fin')
    decreases ts, 0
  {
    if ts != [] {
      var init, t := ts[..|ts| - 1], ts[|ts| - 1];
      WrapPaired(init, ed, fin, fin');
      WrapPairedTree(t, ed, fin, fin');
    }
  }

  lemma {:induction false} WrapPairedTree(t: Tree, ed: Edit, fin: map<nat, nat>, fin': map<nat, nat>)
    requires ed.Wrap? && PairedTree(t, fin) && ed.n !in fin && fin' == fin[ed.n := ed.m]
    ensures PairedTree(WrapInTree(t, ed), fin')
    decreases t, 1
  {
    if t.Branch? { WrapPaired(t.kids, ed, fin, fin'); }
  }

  lemma {:induction false} PairedMore(ts: seq<Tree>, fin: map<nat, nat>, fin': map<nat, nat>)
    requires Paired(ts, fin) && forall x :: x in fin ==> x in fin' && fin'[x] == fin[x]
    ensures Paired(ts, fin')
    decreases ts, 0
  {
    forall i | 0 <= i < |ts| ensures PairedTree(ts[i], fin') {
      if ts[i].Branch? { PairedMore(ts[i].kids, fin, fin'); }
    }
  }

  /** No node is pending inside a tree. */
  lemma {:induction false} NothingOpen(ts: seq<Tree>, it: Item)
    requires it in Lin(ts)
    ensures !it.Open?
    decreases ts
  {
    var init, t := ts[..|ts| - 1], ts[|ts| - 1];
    if it in Lin(init) { NothingOpen(init, it); }
    else if t.Branch? && it in Lin(t.kids) { NothingOpen(t.kids, it); }
  }

  // ---------------------------------------------------------------- the stack of unfinished nodes

  datatype Stack = Stack(base: seq<Tree>, levels: seq<Level>)

  function Read(st: Stack): seq<Item> { LinStack(st.base, st.levels) }

  /** What the innermost unfinished node holds so far. */
  function Inner(st: Stack): seq<Tree> {
    if st.levels == [] then st.base else st.levels[|st.levels| - 1].kids
  }

  function WithInner(st: Stack, kids: seq<Tree>): Stack {
    if st.levels == [] then Stack(kids, [])
    else
      var t := |st.levels| - 1;
      Stack(st.base, st.levels[t := Level(st.levels[t].id, kids)])
  }

  function Push(st: Stack, id: nat, kids: seq<Tree>): Stack {
    Stack(st.base, st.levels + [Level(id, kids)])
  }

  function Pop(st: Stack): Stack
    requires st.levels != []
  {
    Stack(st.base, st.levels[..|st.levels| - 1])
  }

  function Wrapping(st: Stack, ed: Edit): Stack
    requires ed.Wrap?
  {
    Stack(WrapIn(st.base, ed),
          seq(|st.levels|, i requires 0 <= i < |st.levels| => Level(st.levels[i].id, WrapIn(st.levels[i].kids, ed))))
  }

  lemma ReadPush(st: Stack, id: nat, kids: seq<Tree>)
    ensures Read(Push(st, id, kids)) == Read(st) + [Open(id)] + Lin(kids)
  {
    assert (st.levels + [Level(id, kids)])[..|st.levels|] == st.levels;
  }

  lemma ReadPop(st: Stack)
    requires st.levels != []
    ensures Read(st) == Read(Pop(st)) + [Open(st.levels[|st.levels| - 1].id)] + Lin(Inner(st))
  {}

  lemma ReadInner(st: Stack, more: seq<Tree>)
    ensures Read(WithInner(st, Inner(st) + more)) == Read(st) + Lin(more)
  {
    LinConcat(Inner(st), more);
    if st.levels != [] {
      var t := |st.levels| - 1;
      var st' := WithInner(st, Inner(st) + more);
      assert st'.levels[..t] == st.levels[..t];
      ReadPop(st);
      ReadPop(st');
      assert Pop(st') == Pop(st);
    }
  }

  /** An edit that concerns a node that is not named changes nothing. */
  lemma {:induction false} EditUnnamed(ed: Edit, its: seq<Item>)
    requires !ed.Wrap? && Named(its, ed.s) == 0
    ensures EditAll(ed, its) == its
    decreases |its|
  {
    if its != [] { EditUnnamed(ed, its[..|its| - 1]); }
  }

  lemma {:induction false} EditNothingOpen(ed: Edit, ts: seq<Tree>)
    requires ed.SetKind? || ed.Drop?
    ensures EditAll(ed, Lin(ts)) == Lin(ts)
  {
    forall k | 0 <= k < |Lin(ts)| ensures Edited(ed, Lin(ts)[k]) == [Lin(ts)[k]] { NothingOpen(ts, Lin(ts)[k]); }
    EditNone(ed, Lin(ts));
  }

  /** The innermost unfinished node gets its kind, or is given up. */
  lemma InnermostEdited(st: Stack, ed: Edit)
    requires st.levels != [] && (ed.SetKind? || ed.Drop?) && ed.s == st.levels[|st.levels| - 1].id
    requires Named(Read(st), ed.s) <= 1
    ensures EditAll(ed, Read(st)) == Read(Pop(st)) + Edited(ed, Open(ed.s)) + Lin(Inner(st))
  {
    hide EditAll, Edited, Lin, LinStack;
    var a, b, c := Read(Pop(st)), [Open(ed.s)], Lin(Inner(st));
    ReadPop(st);
    EditConcat(ed, a + b, c);
    EditConcat(ed, a, b);
    EditOne(ed, Open(ed.s));
    EditNothingOpen(ed, Inner(st));
    CountConcat(a + b, c, ed.s);
    CountConcat(a, b, ed.s);
    CountOne(Open(ed.s), ed.s);
    EditUnnamed(ed, a);
  }

  lemma CompleteRead(st: Stack, s: nat, f: nat, kind: Kind, error: Option<Problem>)
    requires st.levels != [] && s == st.levels[|st.levels| - 1].id && Named(Read(st), s) <= 1
    ensures var st' := WithInner(Pop(st), Inner(Pop(st)) + [Branch(s, f, kind, error, Inner(st))]);
            Read(st') == EditAll(SetKind(s, kind), Read(st)) + [End(f, error)]
  {
    hide EditAll, Lin, LinStack;
    InnermostEdited(st, SetKind(s, kind));
    var t := Branch(s, f, kind, error, Inner(st));
    ReadInner(Pop(st), [t]);
    LinOne(t);
    LinBranch(t);
  }

  lemma LinBranch(t: Tree)
    requires t.Branch?
    ensures LinTree(t) == [Begin(t.id, t.kind)] + Lin(t.kids) + [End(t.fid, t.error)]
  {}

  lemma ForgetRead(st: Stack, s: nat)
    requires st.levels != [] && s == st.levels[|st.levels| - 1].id && Named(Read(st), s) <= 1
    ensures Read(WithInner(Pop(st), Inner(Pop(st)) + Inner(st))) == EditAll(Drop(s), Read(st))
  {
    InnermostEdited(st, Drop(s));
    ReadInner(Pop(st), Inner(st));
  }

  lemma PrecedeEdit(a: seq<Item>, it: Item, c: seq<Item>, n: nat)
    requires it.Begin? && Named(a + [it] + c, it.id) <= 1
    ensures EditAll(Precede(it.id, n), a + [it] + c) == a + [Open(n), it] + c
  {
    hide EditAll, Named;
    var ed := Precede(it.id, n);
    EditConcat(ed, a + [it], c);
    EditConcat(ed, a, [it]);
    EditOne(ed, it);
    CountConcat(a + [it], c, it.id);
    CountConcat(a, [it], it.id);
    CountOne(it, it.id);
    EditUnnamed(ed, a);
    EditUnnamed(ed, c);
  }

  lemma InnerTwice(st: Stack, kids: seq<Tree>)
    ensures Inner(WithInner(st, kids)) == kids && WithInner(WithInner(st, kids), Inner(st)) == st
  {}

  lemma SplitAt(ts: seq<Tree>, p: nat)
    requires p < |ts|
    ensures ts == ts[..p] + ([ts[p]] + ts[p + 1..]) && ts[p..] == [ts[p]] + ts[p + 1..]
  {}

  lemma LinCons(t: Tree, ts: seq<Tree>)
    requires t.Branch?
    ensures Lin([t] + ts) == [Begin(t.id, t.kind)] + (Lin(t.kids) + [End(t.fid, t.error)] + Lin(ts))
  {
    hide Lin;
    LinConcat([t], ts);
    LinOne(t);
    LinBranch(t);
  }

  /** The innermost unfinished node, split before its `p`-th child. */
  lemma ReadSplit(st: Stack, p: nat)
    requires p < |Inner(st)| && Inner(st)[p].Branch?
    ensures var t, st0 := Inner(st)[p], WithInner(st, Inner(st)[..p]);
            var c := Lin(t.kids) + [End(t.fid, t.error)] + Lin(Inner(st)[p + 1..]);
            && Read(st) == Read(st0) + ([Begin(t.id, t.kind)] + c)
            && Lin(Inner(st)[p..]) == [Begin(t.id, t.kind)] + c
  {
    hide *;
    var x := Inner(st)[..p];
    SplitAt(Inner(st), p);
    InnerTwice(st, x);
    ReadInner(WithInner(st, x), [Inner(st)[p]] + Inner(st)[p + 1..]);
    LinCons(Inner(st)[p], Inner(st)[p + 1..]);
  }

  lemma Regroup(a: seq<Item>, x: Item, y: Item, c: seq<Item>)
    ensures a + [x] + ([y] + c) == a + [x, y] + c && a + ([y] + c) == a + [y] + c
  {}

  lemma PrecedeRead(st: Stack, p: nat, n: nat)
    requires p < |Inner(st)| && Inner(st)[p].Branch?
    requires Named(Read(st), Inner(st)[p].id) <= 1
    ensures var s := Inner(st)[p].id;
            Read(Push(WithInner(st, Inner(st)[..p]), n, Inner(st)[p..])) == EditAll(Precede(s, n), Read(st))
  {
    hide *;
    var t, st0 := Inner(st)[p], WithInner(st, Inner(st)[..p]);
    ReadSplit(st, p);
    ReadPush(st0, n, Inner(st)[p..]);
    var c := Lin(t.kids) + [End(t.fid, t.error)] + Lin(Inner(st)[p + 1..]);
    Regroup(Read(st0), Open(n), Begin(t.id, t.kind), c);
    PrecedeEdit(Read(st0), Begin(t.id, t.kind), c, n);
  }

  ghost predicate PairedStack(st: Stack, fin: map<nat, nat>) {
    Paired(st.base, fin) && forall i :: 0 <= i < |st.levels| ==> Paired(st.levels[i].kids, fin)
  }

  lemma {:induction false} WrapRead(st: Stack, ed: Edit, fin: map<nat, nat>)
    requires ed.Wrap? && PairedStack(st, fin) && Injective(fin) && ed.s in fin && fin[ed.s] == ed.f
    ensures Read(Wrapping(st, ed)) == EditAll(ed, Read(st))
    decreases |st.levels|
  {
    hide EditAll, Lin, LinStack, Paired, WrapIn;
    if st.levels == [] {
      ReadBase(st);
      ReadBase(Wrapping(st, ed));
      WrapLin(st.base, ed, fin);
    } else {
      var below, l := Pop(st), st.levels[|st.levels| - 1];
      WrapRead(below, ed, fin);
      ReadPop(st);
      ReadPop(Wrapping(st, ed));
      assert Pop(Wrapping(st, ed)) == Wrapping(below, ed);
      WrapLin(l.kids, ed, fin);
      EditConcat(ed, Read(below) + [Open(l.id)], Lin(l.kids));
      EditConcat(ed, Read(below), [Open(l.id)]);
      EditOne(ed, Open(l.id));
    }
  }

  lemma ReadBase(st: Stack)
    requires st.levels == []
    ensures Read(st) == Lin(st.base)
  {}
}
