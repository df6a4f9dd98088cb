/** The flat record of parser events, in which nodes opened around already finished ones are linked
    by forward offsets, and the order in which such a record is to be read. */
module Events {
  import opened Options

  /** Kinds of lexemes that the parser never sees, and all other kinds. */
  datatype Kind = Trivia(code: nat) | Proper(code: nat)

  type Problem = string

  datatype Event =
    | Pending
    | Start(kind: Kind, forwardParent: Option<nat>)
    | Token(kind: Kind)
    | Finish(wrapper: Option<nat>, error: Option<Problem>)
    | Noop

  /** What a record stands for: a sequence of openings, tokens and closings. `Open` is a node whose
      kind is not known yet. Nodes are named by the indices of their events. */
  datatype Item = Open(id: nat) | Begin(id: nat, kind: Kind) | Tok(kind: Kind) | End(fid: nat, error: Option<Problem>)

  // ---------------------------------------------------------------- chains of links

  function Next(es: seq<Event>, i: nat): Option<nat>
    requires i < |es|
  {
    match es[i]
    case Start(_, Some(d)) => Some(i + d)
    case Finish(Some(d), _) => Some(i + d)
    case _ => None
  }

  predicate LinkOk(es: seq<Event>, i: nat)
    requires i < |es|
  {
    var n := Next(es, i);
    n.Some? ==>
      && i < n.value < |es|
      && (es[i].Start? ==> es[n.value].Start? || es[n.value].Pending?)
      && (es[i].Finish? ==> es[n.value].Finish?)
  }

  /** Links point forward to events of the same sort, and no event is linked to twice. */
  ghost predicate Linked(es: seq<Event>) {
    && (forall i :: 0 <= i < |es| ==> LinkOk(es, i))
    && forall i, j :: 0 <= i < j < |es| ==> Apart(es, i, j)
  }

  predicate Apart(es: seq<Event>, i: nat, j: nat)
    requires i < j < |es|
  {
    Next(es, i).None? || Next(es, i) != Next(es, j)
  }

  ghost predicate IsTarget(es: seq<Event>, j: nat) {
    exists i :: 0 <= i < |es| && Next(es, i) == Some(j)
  }

  function ItemAt(es: seq<Event>, i: nat): Item
    requires i < |es| && !es[i].Noop?
  {
    match es[i]
    case Pending => Open(i)
    case Start(kind, _) => Begin(i, kind)
    case Token(kind) => Tok(kind)
    case Finish(_, error) => End(i, error)
  }

  /** A chain of openings is read outermost, that is last, first. */
  ghost function Openings(es: seq<Event>, i: nat): seq<Item>
    requires Linked(es) && i < |es| && (es[i].Start? || es[i].Pending?)
    decreases |es| - i
  {
    assert LinkOk(es, i);
    (if Next(es, i).Some? then Openings(es, Next(es, i).value) else []) + [ItemAt(es, i)]
  }

  ghost function Closings(es: seq<Event>, i: nat): seq<Item>
    requires Linked(es) && i < |es| && es[i].Finish?
    decreases |es| - i
  {
    assert LinkOk(es, i);
    [ItemAt(es, i)] + if Next(es, i).Some? then Closings(es, Next(es, i).value) else []
  }

  /** What the `i`-th event contributes: the whole chain it begins, or nothing if another event's
      chain runs through it. */
  ghost function Emit(es: seq<Event>, i: nat): seq<Item>
    requires Linked(es) && i < |es|
  {
    if IsTarget(es, i) then []
    else match es[i]
      case Noop => []
      case Token(kind) => [Tok(kind)]
      case Finish(_, _) => Closings(es, i)
      case _ => Openings(es, i)
  }

  /** The meaning of the first `k` events. */
  ghost function Flat(es: seq<Event>, k: nat): seq<Item>
    requires Linked(es) && k <= |es|
  {
    if k == 0 then [] else Flat(es, k - 1) + Emit(es, k - 1)
  }

  ghost function Meaning(es: seq<Event>): seq<Item>
    requires Linked(es)
  {
    Flat(es, |es|)
  }

  // ---------------------------------------------------------------- edits

  /** How the parser's operations change the meaning of the record: a pending node gets its kind or
      is dropped; a new node is opened just before node `s`, or put around node `s`..`f`. */
  datatype Edit =
    | SetKind(s: nat, kind: Kind)
    | Drop(s: nat)
    | Precede(s: nat, n: nat)
    | Wrap(s: nat, f: nat, n: nat, m: nat, kind: Kind, error: Option<Problem>)

  function Edited(ed: Edit, it: Item): seq<Item> {
    match ed
    case SetKind(s, kind) => if it == Open(s) then [Begin(s, kind)] else [it]
    case Drop(s) => if it == Open(s) then [] else [it]
    case Precede(s, n) => if it.Begin? && it.id == s then [Open(n), it] else [it]
    case Wrap(s, f, n, m, kind, error) =>
      if it.Begin? && it.id == s then [Begin(n, kind), it]
      else if it.End? && it.fid == f then [it, End(m, error)]
      else [it]
  }

  function EditAll(ed: Edit, its: seq<Item>): seq<Item> {
    if its == [] then [] else EditAll(ed, its[..|its| - 1]) + Edited(ed, its[|its| - 1])
  }

  lemma {:induction false} EditConcat(ed: Edit, a: seq<Item>, b: seq<Item>)
    ensures EditAll(ed, a + b) == EditAll(ed, a) + EditAll(ed, b)
    decreases |b|
  {
    hide Edited;
    if b == [] {
      assert a + b == a;
    } else {
      assert (a + b)[..|a + b| - 1] == a + b[..|b| - 1];
      EditConcat(ed, a, b[..|b| - 1]);
    }
  }

  lemma EditOne(ed: Edit, it: Item)
    ensures EditAll(ed, [it]) == Edited(ed, it)
  {
    assert [it][..0] == [];
  }

  lemma {:induction false} EditNone(ed: Edit, its: seq<Item>)
    requires forall k :: 0 <= k < |its| ==> Edited(ed, its[k]) == [its[k]]
    ensures EditAll(ed, its) == its
    decreases |its|
  {
    if its != [] { EditNone(ed, its[..|its| - 1]); }
  }

  /** Editing every contribution edits the whole, when nothing else is contributed. */
  lemma {:induction false} FlatEdited(es: seq<Event>, es': seq<Event>, ed: Edit, k: nat)
    requires Linked(es) && Linked(es') && k <= |es| <= |es'|
    requires forall i :: 0 <= i < k ==> Emit(es', i) == EditAll(ed, Emit(es, i))
    ensures Flat(es', k) == EditAll(ed, Flat(es, k))
    decreases k
  {
    hide Linked, Emit, Edited;
    if k > 0 {
      hide EditAll;
      FlatEdited(es, es', ed, k - 1);
      EditConcat(ed, Flat(es, k - 1), Emit(es, k - 1));
    }
  }

  // ---------------------------------------------------------------- appending

  predicate Loose(e: Event) {
    (e.Start? ==> e.forwardParent.None?) && (e.Finish? ==> e.wrapper.None?)
  }

  lemma AppendLinked(es: seq<Event>, e: Event)
    requires Linked(es) && Loose(e)
    ensures Linked(es + [e]) && Next(es + [e], |es|).None?
    ensures forall i :: 0 <= i < |es| ==> Next(es + [e], i) == Next(es, i)
    ensures forall j: nat :: IsTarget(es + [e], j) <==> IsTarget(es, j)
    ensures !IsTarget(es, |es|)
  {
    var es' := es + [e];
    assert forall i :: 0 <= i < |es| ==> es'[i] == es[i];
    forall i | 0 <= i < |es'| ensures LinkOk(es', i) { if i < |es| { assert LinkOk(es, i); } }
    forall i, j | 0 <= i < j < |es'| ensures Apart(es', i, j) { if j < |es| { assert Apart(es, i, j); } }
    forall j: nat ensures IsTarget(es', j) <==> IsTarget(es, j) {
      if IsTarget(es, j) {
        var i :| 0 <= i < |es| && Next(es, i) == Some(j);
        assert Next(es', i) == Some(j);
      }
      if IsTarget(es', j) {
        var i :| 0 <= i < |es'| && Next(es', i) == Some(j);
        assert Next(es, i) == Some(j);
      }
    }
    forall i | 0 <= i < |es| ensures Next(es, i) != Some(|es|) { assert LinkOk(es, i); }
  }

  lemma {:induction false} ChainKept(es: seq<Event>, es': seq<Event>, i: nat)
    requires Linked(es) && Linked(es') && |es| <= |es'| && i < |es|
    requires forall k :: 0 <= k < |es| ==> es'[k] == es[k]
    ensures es[i].Start? || es[i].Pending? ==> Openings(es', i) == Openings(es, i)
    ensures es[i].Finish? ==> Closings(es', i) == Closings(es, i)
    decreases |es| - i
  {
    assert LinkOk(es, i);
    if Next(es, i).Some? { ChainKept(es, es', Next(es, i).value); }
  }

  lemma {:induction false} FlatKept(es: seq<Event>, es': seq<Event>, k: nat)
    requires Linked(es) && Linked(es') && k <= |es| <= |es'|
    requires forall i :: 0 <= i < k ==> Emit(es', i) == Emit(es, i)
    ensures Flat(es', k) == Flat(es, k)
    decreases k
  {
    hide Linked, Emit;
    if k > 0 { FlatKept(es, es', k - 1); }
  }

  /** A new event without links adds its own item at the end. */
  lemma Appended(es: seq<Event>, e: Event)
    requires Linked(es) && Loose(e) && !e.Noop?
    ensures Linked(es + [e]) && Meaning(es + [e]) == Meaning(es) + [ItemAt(es + [e], |es|)]
  {
    var es' := es + [e];
    AppendLinked(es, e);
    forall i | 0 <= i < |es| ensures Emit(es', i) == Emit(es, i) {
      ChainKept(es, es', i);
    }
    FlatKept(es, es', |es|);
    assert Emit(es', |es|) == [ItemAt(es', |es|)];
  }

  // ---------------------------------------------------------------- patching

  lemma PatchSame(es: seq<Event>, s: nat, e: Event)
    requires Linked(es) && s < |es| && es[s].Pending?
    requires e.Noop? ==> !IsTarget(es, s)
    requires e.Noop? || (e.Start? && e.forwardParent.None?)
    ensures Linked(es[s := e]) && forall j: nat :: IsTarget(es[s := e], j) <==> IsTarget(es, j)
    ensures forall i :: 0 <= i < |es| ==> Next(es[s := e], i) == Next(es, i)
  {
    var es' := es[s := e];
    assert forall i :: 0 <= i < |es| ==> Next(es', i) == Next(es, i);
    forall i | 0 <= i < |es'| ensures LinkOk(es', i) {
      assert LinkOk(es, i);
      if Next(es, i) == Some(s) { assert IsTarget(es, s); }
    }
    forall i, j | 0 <= i < j < |es'| ensures Apart(es', i, j) { assert Apart(es, i, j); }
    forall j: nat ensures IsTarget(es', j) <==> IsTarget(es, j) {
      if IsTarget(es, j) {
        var i :| 0 <= i < |es| && Next(es, i) == Some(j);
        assert Next(es', i) == Some(j);
      }
    }
  }

  lemma {:induction false} SetKindChain(es: seq<Event>, es': seq<Event>, s: nat, kind: Kind, i: nat)
    requires Linked(es) && Linked(es') && s < |es| && es[s].Pending? && es' == es[s := Start(kind, None)] && i < |es|
    ensures es[i].Start? || es[i].Pending? ==> Openings(es', i) == EditAll(SetKind(s, kind), Openings(es, i))
    ensures es[i].Finish? ==> Closings(es', i) == EditAll(SetKind(s, kind), Closings(es, i))
    decreases |es| - i
  {
    var ed := SetKind(s, kind);
    assert LinkOk(es, i);
    assert Next(es', i) == Next(es, i);
    if !es[i].Noop? { EditOne(ed, ItemAt(es, i)); }
    if Next(es, i).Some? {
      var n := Next(es, i).value;
      SetKindChain(es, es', s, kind, n);
      if es[i].Start? { EditConcat(ed, Openings(es, n), [ItemAt(es, i)]); }
      if es[i].Finish? { EditConcat(ed, [ItemAt(es, i)], Closings(es, n)); }
    }
  }

  /** A pending node gets its kind. */
  lemma SetKindMeaning(es: seq<Event>, s: nat, kind: Kind)
    requires Linked(es) && s < |es| && es[s].Pending?
    ensures Linked(es[s := Start(kind, None)])
    ensures Meaning(es[s := Start(kind, None)]) == EditAll(SetKind(s, kind), Meaning(es))
  {
    var es', ed := es[s := Start(kind, None)], SetKind(s, kind);
    PatchSame(es, s, Start(kind, None));
    forall i | 0 <= i < |es| ensures Emit(es', i) == EditAll(ed, Emit(es, i)) {
      SetKindChain(es, es', s, kind, i);
      if es[i].Token? { EditOne(ed, Tok(es[i].kind)); }
    }
    FlatEdited(es, es', ed, |es|);
  }

  lemma {:induction false} DropChain(es: seq<Event>, es': seq<Event>, s: nat, i: nat)
    requires Linked(es) && Linked(es') && s < |es| && es[s].Pending? && !IsTarget(es, s) && es' == es[s := Noop] && i < |es| && i != s
    ensures es[i].Start? || es[i].Pending? ==> Openings(es', i) == EditAll(Drop(s), Openings(es, i))
    ensures es[i].Finish? ==> Closings(es', i) == EditAll(Drop(s), Closings(es, i))
    decreases |es| - i
  {
    var ed := Drop(s);
    assert LinkOk(es, i);
    assert Next(es', i) == Next(es, i);
    if !es[i].Noop? { EditOne(ed, ItemAt(es, i)); }
    if Next(es, i).Some? {
      var n := Next(es, i).value;
      assert IsTarget(es, n);
      DropChain(es, es', s, n);
      if es[i].Start? { EditConcat(ed, Openings(es, n), [ItemAt(es, i)]); }
      if es[i].Finish? { EditConcat(ed, [ItemAt(es, i)], Closings(es, n)); }
    }
  }

  /** A pending node that no finished node lies under is given up. */
  lemma DropMeaning(es: seq<Event>, s: nat)
    requires Linked(es) && s < |es| && es[s].Pending? && !IsTarget(es, s)
    ensures Linked(es[s := Noop]) && Meaning(es[s := Noop]) == EditAll(Drop(s), Meaning(es))
  {
    var es', ed := es[s := Noop], Drop(s);
    PatchSame(es, s, Noop);
    forall i | 0 <= i < |es| ensures Emit(es', i) == EditAll(ed, Emit(es, i)) {
      if i == s { EditOne(ed, Open(s)); } else { DropChain(es, es', s, i); }
      if es[i].Token? { EditOne(ed, Tok(es[i].kind)); }
    }
    FlatEdited(es, es', ed, |es|);
  }

  /** The record after a node has been opened around the finished node `s`. */
  function Preceded(es: seq<Event>, s: nat): seq<Event>
    requires s < |es| && es[s].Start?
  {
    es[s := es[s].(forwardParent := Some(|es| - s))] + [Pending]
  }

  /** The record after the finished node `s`..`f` has been wrapped in place. */
  function Wrapped(es: seq<Event>, s: nat, f: nat, kind: Kind, error: Option<Problem>): seq<Event>
    requires s < |es| && es[s].Start? && f < |es| && es[f].Finish?
  {
    es[s := es[s].(forwardParent := Some(|es| - s))][f := es[f].(wrapper := Some(|es| + 1 - f))]
    + [Start(kind, None), Finish(None, error)]
  }

  /** `es'` is `es` with node `s` linked to the new event at the end and, for a wrapping, closing `f`
      linked to the one after it. */
  ghost predicate Patched(es: seq<Event>, es': seq<Event>, s: nat, f: Option<nat>) {
    && s < |es| < |es'| && es[s].Start? && es[s].forwardParent.None?
    && es'[s] == es[s].(forwardParent := Some(|es| - s)) && (es'[|es|].Start? || es'[|es|].Pending?)
    && (f.Some? ==>
          && f.value < |es| && es[f.value].Finish? && es[f.value].wrapper.None? && |es'| == |es| + 2
          && es'[f.value] == es[f.value].(wrapper := Some(|es| + 1 - f.value)) && es'[|es| + 1].Finish?)
    && (f.None? ==> |es'| == |es| + 1)
    && (forall i :: 0 <= i < |es| && i != s && (f.Some? ==> i != f.value) ==> es'[i] == es[i])
    && forall i :: |es| <= i < |es'| ==> Loose(es'[i])
  }

  /** Where the event `i` of a patched list leads. */
  function NextPatched(es: seq<Event>, s: nat, f: Option<nat>, i: nat): Option<nat> {
    if i >= |es| then None
    else if i == s then Some(|es|)
    else if f == Some(i) then Some(|es| + 1)
    else Next(es, i)
  }

  lemma PatchedNext(es: seq<Event>, es': seq<Event>, s: nat, f: Option<nat>, i: nat)
    requires Linked(es) && Patched(es, es', s, f) && i < |es'|
    ensures LinkOk(es', i) && Next(es', i) == NextPatched(es, s, f, i)
    ensures i < |es| && Next(es, i).Some? ==> Next(es, i).value < |es|
  {
    if i < |es| { assert LinkOk(es, i); }
  }

  lemma PatchedLinks(es: seq<Event>, es': seq<Event>, s: nat, f: Option<nat>)
    requires Linked(es) && Patched(es, es', s, f)
    ensures Linked(es')
    ensures forall i :: 0 <= i < |es| ==>
              Next(es', i) == if i == s then Some(|es|) else if f == Some(i) then Some(|es| + 1) else Next(es, i)
    ensures forall j :: 0 <= j < |es'| ==> (IsTarget(es', j) <==> IsTarget(es, j) || j >= |es|)
  {
    forall i | 0 <= i < |es'|
      ensures LinkOk(es', i) && Next(es', i) == NextPatched(es, s, f, i)
      ensures i < |es| && Next(es, i).Some? ==> Next(es, i).value < |es|
    {
      PatchedNext(es, es', s, f, i);
    }
    assert Next(es, s).None? && (f.Some? ==> Next(es, f.value).None?);
    hide Next, LinkOk;
    forall i, j | 0 <= i < j < |es'| ensures Apart(es', i, j) {
      if j < |es| { assert Apart(es, i, j); }
    }
    forall j | 0 <= j < |es'| ensures IsTarget(es', j) <==> IsTarget(es, j) || j >= |es| {
      if IsTarget(es, j) {
        var i :| 0 <= i < |es| && Next(es, i) == Some(j);
        assert Next(es', i) == Some(j);
      }
      if j == |es| { assert Next(es', s) == Some(j); }
      if j == |es| + 1 { assert Next(es', f.value) == Some(j); }
      if IsTarget(es', j) && j < |es| {
        var i :| 0 <= i < |es'| && Next(es', i) == Some(j);
        assert Next(es, i) == Some(j);
      }
    }
  }

  ghost predicate Describes(ed: Edit, es: seq<Event>, es': seq<Event>, s: nat, f: Option<nat>)
    requires Patched(es, es', s, f)
  {
    match f
    case None => ed == Precede(s, |es|) && es'[|es|].Pending?
    case Some(g) =>
      es'[|es|].Start? && ed == Wrap(s, g, |es|, |es| + 1, es'[|es|].kind, es'[|es| + 1].error)
  }

  lemma PatchedAt(es: seq<Event>, es': seq<Event>, s: nat, f: Option<nat>, i: nat)
    requires Linked(es) && Patched(es, es', s, f) && i < |es|
    ensures es'[i].Noop? == es[i].Noop? && es'[i].Start? == es[i].Start? && es'[i].Pending? == es[i].Pending?
    ensures es'[i].Finish? == es[i].Finish?
    ensures !es[i].Noop? ==> ItemAt(es', i) == ItemAt(es, i)
    ensures Next(es', i) == if i == s then Some(|es|) else if f == Some(i) then Some(|es| + 1) else Next(es, i)
    ensures i == s || f == Some(i) ==> Next(es, i).None?
    ensures LinkOk(es, i)
  {}

  lemma PatchedItem(es: seq<Event>, es': seq<Event>, s: nat, f: Option<nat>, ed: Edit, i: nat)
    requires Linked(es) && Patched(es, es', s, f) && Describes(ed, es, es', s, f) && i < |es| && !es[i].Noop?
    ensures EditAll(ed, [ItemAt(es, i)]) ==
            if i == s then [ItemAt(es', |es|), ItemAt(es, i)]
            else if f == Some(i) then [ItemAt(es, i), ItemAt(es', |es| + 1)]
            else [ItemAt(es, i)]
  {
    EditOne(ed, ItemAt(es, i));
  }

  lemma PatchedEnds(es: seq<Event>, es': seq<Event>, s: nat, f: Option<nat>)
    requires Linked(es') && Patched(es, es', s, f)
    ensures Openings(es', |es|) == [ItemAt(es', |es|)]
    ensures f.Some? ==> Closings(es', |es| + 1) == [ItemAt(es', |es| + 1)]
  {}

  lemma {:induction false} PatchedOpenings(es: seq<Event>, es': seq<Event>, s: nat, f: Option<nat>, ed: Edit, i: nat)
    requires Linked(es) && Linked(es') && Patched(es, es', s, f) && Describes(ed, es, es', s, f)
    requires i < |es| && (es[i].Start? || es[i].Pending?)
    ensures es'[i].Start? || es'[i].Pending?
    ensures Openings(es', i) == EditAll(ed, Openings(es, i))
    decreases |es| - i
  {
    PatchedAt(es, es', s, f, i);
    PatchedItem(es, es', s, f, ed, i);
    PatchedEnds(es, es', s, f);
    hide Linked, Patched, Describes, EditAll;
    if i != s && Next(es, i).Some? {
      PatchedOpenings(es, es', s, f, ed, Next(es, i).value);
      EditConcat(ed, Openings(es, Next(es, i).value), [ItemAt(es, i)]);
    }
  }

  lemma {:induction false} PatchedClosings(es: seq<Event>, es': seq<Event>, s: nat, f: Option<nat>, ed: Edit, i: nat)
    requires Linked(es) && Linked(es') && Patched(es, es', s, f) && Describes(ed, es, es', s, f)
    requires i < |es| && es[i].Finish?
    ensures es'[i].Finish?
    ensures Closings(es', i) == EditAll(ed, Closings(es, i))
    decreases |es| - i
  {
    PatchedAt(es, es', s, f, i);
    PatchedItem(es, es', s, f, ed, i);
    PatchedEnds(es, es', s, f);
    hide Linked, Patched, Describes, EditAll;
    if f != Some(i) && Next(es, i).Some? {
      PatchedClosings(es, es', s, f, ed, Next(es, i).value);
      EditConcat(ed, [ItemAt(es, i)], Closings(es, Next(es, i).value));
    }
  }

  lemma PatchedEmit(es: seq<Event>, es': seq<Event>, s: nat, f: Option<nat>, ed: Edit, i: nat)
    requires Linked(es) && Linked(es') && Patched(es, es', s, f) && Describes(ed, es, es', s, f) && i < |es|
    requires IsTarget(es', i) <==> IsTarget(es, i)
    ensures Emit(es', i) == EditAll(ed, Emit(es, i))
  {
    PatchedAt(es, es', s, f, i);
    if !IsTarget(es, i) {
      match es[i]
      case Noop =>
      case Token(kind) => EditOne(ed, Tok(kind));
      case Finish(_, _) => PatchedClosings(es, es', s, f, ed, i);
      case _ => PatchedOpenings(es, es', s, f, ed, i);
    }
  }

  lemma {:induction false} SilentTail(es: seq<Event>, k: nat, n: nat)
    requires Linked(es) && k <= n <= |es| && forall i :: k <= i < n ==> IsTarget(es, i)
    ensures Flat(es, n) == Flat(es, k)
    decreases n
  {
    hide Linked, IsTarget;
    if k < n {
      SilentTail(es, k, n - 1);
      assert IsTarget(es, n - 1);
      assert Emit(es, n - 1) == [];
    }
  }

  /** Opening a node around a finished one, or wrapping one in place, edits the meaning of the
      record just there. */
  lemma PatchedMeaning(es: seq<Event>, es': seq<Event>, s: nat, f: Option<nat>, ed: Edit)
    requires Linked(es) && Patched(es, es', s, f) && Describes(ed, es, es', s, f)
    ensures Linked(es') && Meaning(es') == EditAll(ed, Meaning(es))
  {
    PatchedLinks(es, es', s, f);
    assert |es| <= |es'|;
    hide Linked, Patched, Describes, Openings, Closings, LinkOk, IsTarget, EditAll, Emit, Flat;
    forall i | 0 <= i < |es| ensures Emit(es', i) == EditAll(ed, Emit(es, i)) {
      PatchedEmit(es, es', s, f, ed, i);
    }
    FlatEdited(es, es', ed, |es|);
    SilentTail(es', |es|, |es'|);
  }
}
