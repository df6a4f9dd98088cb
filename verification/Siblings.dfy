/** Dependencies between the bindings of one frame: a flattened record of who references whom, and
    the two loops that run over it until nothing changes. */
module Siblings {
  const MAX: nat := 0xFFFF_FFFF

  type Depth = d: nat | d <= MAX

  /** Outermost object, outermost local frame and innermost local frame a value depends on. */
  datatype Record = Analysis(obj: Depth, loc: Depth, locMax: Depth)

  /** Without a local frame the last two have their starting values. */
  type Analysis = a: Record | a.loc <= a.locMax || (a.loc == MAX && a.locMax == 0) witness Analysis(MAX, MAX, 0)

  const Nothing: Analysis := Analysis(MAX, MAX, 0)

  function Min(a: Depth, b: Depth): Depth { if a <= b then a else b }

  function Max(a: Depth, b: Depth): Depth { if a <= b then b else a }

  function TaintBy(a: Analysis, b: Analysis): Analysis {
    Analysis(Min(a.obj, b.obj), Min(a.loc, b.loc), Max(a.locMax, b.locMax))
  }

  function DependOnLocal(a: Analysis, d: Depth): Analysis {
    Analysis(a.obj, Min(a.loc, d), Max(a.locMax, d))
  }

  function DependOnObject(a: Analysis, d: Depth): Analysis { Analysis(Min(a.obj, d), a.loc, a.locMax) }

  predicate HasLocalDeps(a: Analysis) { a.locMax >= a.loc }

  /** One more than the depth of the innermost local frame, 0 without one. */
  function Level(a: Analysis): nat { if HasLocalDeps(a) then a.locMax + 1 else 0 }

  lemma LevelOfBoth(a: Analysis, b: Analysis)
    ensures Level(TaintBy(a, b)) == if Level(a) >= Level(b) then Level(a) else Level(b)
  {}

  lemma LevelOfLocal(a: Analysis, d: Depth)
    ensures Level(DependOnLocal(a, d)) == if Level(a) > d then Level(a) else d + 1
  {}

  lemma NothingNew(a: Analysis)
    ensures TaintBy(Nothing, a) == a
  {}

  /** `a` records at least the dependencies of `b`. */
  predicate Covers(a: Analysis, b: Analysis) { a.obj <= b.obj && a.loc <= b.loc && a.locMax >= b.locMax }

  /** What a binding inherits from a sibling it references. */
  function Inherit(a: Analysis, used: Analysis, usedDepth: Depth): Analysis {
    DependOnLocal(TaintBy(a, used), usedDepth)
  }

  // ---------------------------------------------------------------- the flattened record

  /** `shapes[i]` says how many entries of `referenced` belong to the `i`-th binding group and how
      many consecutive ids the group binds. */
  datatype Closures = Closures(first: nat, referenced: seq<nat>, shapes: seq<(nat, nat)>)

  datatype Spec = Spec(refs: seq<nat>, lo: nat, hi: nat)

  function Sum(ns: seq<(nat, nat)>): (nat, nat) {
    if ns == [] then (0, 0)
    else var r := Sum(ns[..|ns| - 1]); (r.0 + ns[|ns| - 1].0, r.1 + ns[|ns| - 1].1)
  }

  predicate WellShaped(c: Closures) { Sum(c.shapes).0 == |c.referenced| }

  function PushSpec(c: Closures, ids: nat, refs: seq<nat>): Closures {
    Closures(c.first, c.referenced + refs, c.shapes + [(|refs|, ids)])
  }

  /** Decoding: cut the references and the ids at the recorded counts. */
  method IterSpecs(c: Closures) returns (specs: seq<Spec>)
    requires WellShaped(c)
    ensures specs == Specs(c)
  {
    var refs, next := c.referenced, c.first;
    specs := [];
    for i := 0 to |c.shapes|
      invariant Sum(c.shapes[..i]).0 + |refs| == |c.referenced|
      invariant refs == c.referenced[Sum(c.shapes[..i]).0..]
      invariant next == c.first + Sum(c.shapes[..i]).1
      invariant specs == SpecsUpTo(c, i)
    {
      SumUpTo(c.shapes, i);
      var (nrefs, nids) := c.shapes[i];
      assert refs[..nrefs] == c.referenced[Sum(c.shapes[..i]).0..Sum(c.shapes[..i]).0 + nrefs];
      specs := specs + [Spec(refs[..nrefs], next, next + nids)];
      refs, next := refs[nrefs..], next + nids;
    }
    assert c.shapes[..|c.shapes|] == c.shapes;
  }

  lemma SumNext(ns: seq<(nat, nat)>, i: nat)
    requires i < |ns|
    ensures Sum(ns[..i + 1]) == (Sum(ns[..i]).0 + ns[i].0, Sum(ns[..i]).1 + ns[i].1)
  {
    assert ns[..i + 1][..i] == ns[..i];
  }

  lemma {:induction false} SumUpTo(ns: seq<(nat, nat)>, i: nat)
    requires i < |ns|
    ensures Sum(ns[..i + 1]) == (Sum(ns[..i]).0 + ns[i].0, Sum(ns[..i]).1 + ns[i].1)
    ensures Sum(ns[..i + 1]).0 <= Sum(ns).0
    decreases |ns| - i
  {
    hide Sum;
    SumNext(ns, i);
    if i + 1 < |ns| { SumUpTo(ns, i + 1); } else { assert ns[..i + 1] == ns; }
  }

  function SpecAt(c: Closures, i: nat): Spec
    requires WellShaped(c) && i < |c.shapes|
  {
    SumUpTo(c.shapes, i);
    var at := Sum(c.shapes[..i]);
    Spec(c.referenced[at.0..at.0 + c.shapes[i].0], c.first + at.1, c.first + at.1 + c.shapes[i].1)
  }

  function SpecsUpTo(c: Closures, i: nat): seq<Spec>
    requires WellShaped(c) && i <= |c.shapes|
  {
    if i == 0 then []
    else
      SpecsUpTo(c, i - 1) + [SpecAt(c, i - 1)]
  }

  function Specs(c: Closures): seq<Spec>
    requires WellShaped(c)
  {
    SpecsUpTo(c, |c.shapes|)
  }

  lemma {:induction false} SpecsPrefix(c: Closures, ids: nat, refs: seq<nat>, i: nat)
    requires WellShaped(c) && i <= |c.shapes|
    ensures WellShaped(PushSpec(c, ids, refs)) && SpecsUpTo(PushSpec(c, ids, refs), i) == SpecsUpTo(c, i)
    decreases i
  {
    PushedShape(c, ids, refs);
    if i > 0 {
      SpecsPrefix(c, ids, refs, i - 1);
      hide SpecsUpTo, PushSpec;
      NextSpec(c, i - 1);
      NextSpec(PushSpec(c, ids, refs), i - 1);
      SameSpec(c, ids, refs, i - 1);
    } else {
      assert SpecsUpTo(PushSpec(c, ids, refs), 0) == SpecsUpTo(c, 0);
    }
  }

  lemma PushedShape(c: Closures, ids: nat, refs: seq<nat>)
    requires WellShaped(c)
    ensures WellShaped(PushSpec(c, ids, refs)) && |PushSpec(c, ids, refs).shapes| == |c.shapes| + 1
  {
    assert PushSpec(c, ids, refs).shapes[..|c.shapes|] == c.shapes;
  }

  lemma NextSpec(c: Closures, i: nat)
    requires WellShaped(c) && i < |c.shapes|
    ensures SpecsUpTo(c, i + 1) == SpecsUpTo(c, i) + [SpecAt(c, i)]
  {}

  /** What is recorded already is not touched. */
  lemma SameSpec(c: Closures, ids: nat, refs: seq<nat>, i: nat)
    requires WellShaped(c) && WellShaped(PushSpec(c, ids, refs)) && i < |c.shapes|
    ensures i < |PushSpec(c, ids, refs).shapes| && SpecAt(PushSpec(c, ids, refs), i) == SpecAt(c, i)
  {
    var c' := PushSpec(c, ids, refs);
    SumUpTo(c.shapes, i);
    assert c'.shapes[..i] == c.shapes[..i];
    var a := Sum(c.shapes[..i]).0;
    assert c'.referenced[a..a + c.shapes[i].0] == c.referenced[a..a + c.shapes[i].0];
  }

  /** Recording a group and reading the record back gives the group, after the ones before it. */
  lemma PushThenIter(c: Closures, ids: nat, refs: seq<nat>)
    requires WellShaped(c)
    ensures WellShaped(PushSpec(c, ids, refs))
    ensures var lo := c.first + Sum(c.shapes).1;
            Specs(PushSpec(c, ids, refs)) == Specs(c) + [Spec(refs, lo, lo + ids)]
  {
    var c' := PushSpec(c, ids, refs);
    SpecsPrefix(c, ids, refs, |c.shapes|);
    assert c'.shapes[..|c.shapes|] == c.shapes;
    assert c'.referenced[|c.referenced|..|c.referenced| + |refs|] == refs;
  }

  lemma {:induction false} IdsFrom(c: Closures, i: nat)
    requires WellShaped(c) && i <= |c.shapes|
    ensures |SpecsUpTo(c, i)| == i && forall j :: 0 <= j < i ==> c.first <= SpecsUpTo(c, i)[j].lo
  {
    if i > 0 { IdsFrom(c, i - 1); }
  }

  // ---------------------------------------------------------------- reachability

  ghost predicate Edge(specs: seq<Spec>, u: nat, v: nat) {
    exists i :: 0 <= i < |specs| && specs[i].lo <= u < specs[i].hi && v in specs[i].refs
  }

  ghost predicate Path(specs: seq<Spec>, p: seq<nat>) {
    p != [] && forall i :: 0 <= i < |p| - 1 ==> Edge(specs, p[i], p[i + 1])
  }

  /** A non-empty chain of references from `u` to `v`. */
  ghost predicate Refers(specs: seq<Spec>, u: nat, v: nat) {
    exists p :: Path(specs, p) && |p| > 1 && p[0] == u && p[|p| - 1] == v
  }

  ghost predicate Reaches(specs: seq<Spec>, u: nat, v: nat) { u == v || Refers(specs, u, v) }

  lemma EdgeRefers(specs: seq<Spec>, u: nat, v: nat)
    requires Edge(specs, u, v)
    ensures Refers(specs, u, v)
  {
    assert Path(specs, [u, v]);
  }

  lemma EdgeThenRefers(specs: seq<Spec>, u: nat, v: nat, w: nat)
    requires Edge(specs, u, v) && Reaches(specs, v, w)
    ensures Refers(specs, u, w)
  {
    if v == w {
      EdgeRefers(specs, u, v);
    } else {
      var p :| Path(specs, p) && |p| > 1 && p[0] == v && p[|p| - 1] == w;
      assert Path(specs, [u] + p);
    }
  }

  lemma RefersThenEdge(specs: seq<Spec>, u: nat, v: nat, w: nat)
    requires Reaches(specs, u, v) && Edge(specs, v, w)
    ensures Refers(specs, u, w)
  {
    if u == v {
      EdgeRefers(specs, u, w);
    } else {
      var p :| Path(specs, p) && |p| > 1 && p[0] == u && p[|p| - 1] == v;
      assert Path(specs, p + [w]);
    }
  }

  /** Every id and every reference is a live local. */
  ghost predicate InBounds(specs: seq<Spec>, n: nat) {
    forall i :: 0 <= i < |specs| ==> specs[i].hi <= n && forall v :: v in specs[i].refs ==> v < n
  }

  // ---------------------------------------------------------------- the dependency loop

  ghost predicate CoversAll(xs: seq<Analysis>, ys: seq<Analysis>) {
    |xs| == |ys| && forall i :: 0 <= i < |xs| ==> Covers(xs[i], ys[i])
  }

  /** Nothing is left to inherit along `u -> v`. */
  predicate Settled(xs: seq<Analysis>, depth: seq<Depth>, u: nat, v: nat)
    requires u < |xs| && v < |xs| && |depth| == |xs|
  {
    Inherit(xs[u], xs[v], depth[v]) == xs[u]
  }

  ghost predicate Closed(xs: seq<Analysis>, depth: seq<Depth>, specs: seq<Spec>) {
    |depth| == |xs| && forall u: nat, v: nat :: Edge(specs, u, v) && u < |xs| && v < |xs| ==> Settled(xs, depth, u, v)
  }

  ghost predicate ObjFrom(xs0: seq<Analysis>, specs: seq<Spec>, u: nat, d: Depth) {
    exists v :: 0 <= v < |xs0| && Reaches(specs, u, v) && xs0[v].obj == d
  }

  ghost predicate LocFrom(xs0: seq<Analysis>, depth: seq<Depth>, specs: seq<Spec>, u: nat, d: Depth)
    requires |depth| == |xs0|
  {
    exists v :: 0 <= v < |xs0| && Reaches(specs, u, v) && (xs0[v].loc == d || (Refers(specs, u, v) && depth[v] == d))
  }

  ghost predicate MaxFrom(xs0: seq<Analysis>, depth: seq<Depth>, specs: seq<Spec>, u: nat, d: Depth)
    requires |depth| == |xs0|
  {
    exists v :: 0 <= v < |xs0| && Reaches(specs, u, v) && (xs0[v].locMax == d || (Refers(specs, u, v) && depth[v] == d))
  }

  /** Every component of every analysis was contributed by a sibling reachable from its owner. */
  ghost predicate Attained(xs: seq<Analysis>, xs0: seq<Analysis>, depth: seq<Depth>, specs: seq<Spec>) {
    && |xs| == |xs0| == |depth|
    && forall u :: 0 <= u < |xs| ==>
         && ObjFrom(xs0, specs, u, xs[u].obj)
         && LocFrom(xs0, depth, specs, u, xs[u].loc)
         && MaxFrom(xs0, depth, specs, u, xs[u].locMax)
  }

  lemma AttainedStart(xs: seq<Analysis>, depth: seq<Depth>, specs: seq<Spec>)
    requires |depth| == |xs|
    ensures Attained(xs, xs, depth, specs)
  {
    forall u | 0 <= u < |xs|
      ensures ObjFrom(xs, specs, u, xs[u].obj) && LocFrom(xs, depth, specs, u, xs[u].loc)
      ensures MaxFrom(xs, depth, specs, u, xs[u].locMax)
    {
      assert Reaches(specs, u, u);
    }
  }

  /** A binding that refers to nothing keeps its analysis. */
  lemma AttainedAlone(ys: seq<Analysis>, xs: seq<Analysis>, depth: seq<Depth>, specs: seq<Spec>, u: nat)
    requires Attained(ys, xs, depth, specs) && u < |xs| && forall v :: !Edge(specs, u, v)
    ensures ys[u] == xs[u]
  {
    forall v ensures !Refers(specs, u, v) { if Refers(specs, u, v) { FirstRef(specs, u, v); } }
  }

  lemma FirstRef(specs: seq<Spec>, u: nat, v: nat)
    requires Refers(specs, u, v)
    ensures exists w :: Edge(specs, u, w)
  {
    var p :| Path(specs, p) && |p| > 1 && p[0] == u && p[|p| - 1] == v;
    assert Edge(specs, p[0], p[1]);
  }

  lemma AttainedStep(xs: seq<Analysis>, xs0: seq<Analysis>, depth: seq<Depth>, specs: seq<Spec>, u: nat, v: nat)
    requires Attained(xs, xs0, depth, specs) && Edge(specs, u, v) && u < |xs| && v < |xs|
    ensures Attained(xs[u := Inherit(xs[u], xs[v], depth[v])], xs0, depth, specs)
  {
    var x := Inherit(xs[u], xs[v], depth[v]);
    EdgeRefers(specs, u, v);
    assert ObjFrom(xs0, specs, u, x.obj) by {
      if x.obj != xs[u].obj {
        var w :| 0 <= w < |xs0| && Reaches(specs, v, w) && xs0[w].obj == xs[v].obj;
        EdgeThenRefers(specs, u, v, w);
      }
    }
    assert LocFrom(xs0, depth, specs, u, x.loc) by {
      if x.loc != xs[u].loc && x.loc != depth[v] {
        var w :| 0 <= w < |xs0| && Reaches(specs, v, w)
                 && (xs0[w].loc == xs[v].loc || (Refers(specs, v, w) && depth[w] == xs[v].loc));
        EdgeThenRefers(specs, u, v, w);
      }
    }
    assert MaxFrom(xs0, depth, specs, u, x.locMax) by {
      if x.locMax != xs[u].locMax && x.locMax != depth[v] {
        var w :| 0 <= w < |xs0| && Reaches(specs, v, w)
                 && (xs0[w].locMax == xs[v].locMax || (Refers(specs, v, w) && depth[w] == xs[v].locMax));
        EdgeThenRefers(specs, u, v, w);
      }
    }
  }

  ghost function Weight(a: Analysis): nat { a.obj + a.loc + (MAX - a.locMax) }

  ghost function Measure(xs: seq<Analysis>): nat {
    if xs == [] then 0 else Measure(xs[..|xs| - 1]) + Weight(xs[|xs| - 1])
  }

  lemma {:induction false} MeasureUpdate(xs: seq<Analysis>, u: nat, x: Analysis)
    requires u < |xs|
    ensures Measure(xs[u := x]) == Measure(xs) - Weight(xs[u]) + Weight(x)
    decreases |xs|
  {
    var n := |xs| - 1;
    if u < n {
      assert xs[u := x][..n] == xs[..n][u := x];
      MeasureUpdate(xs[..n], u, x);
    } else {
      assert xs[u := x][..n] == xs[..n];
    }
  }

  /** One sibling reference: `user` inherits from `used`. Each change strictly lowers the measure. */
  method PropagateAnalysis(xs: seq<Analysis>, depth: seq<Depth>, user: nat, used: nat)
    returns (ys: seq<Analysis>, changed: bool)
    requires user < |xs| && used < |xs| && |depth| == |xs|
    ensures ys == xs[user := Inherit(xs[user], xs[used], depth[used])]
    ensures CoversAll(ys, xs) && (changed <==> !Settled(xs, depth, user, used)) && (changed <==> ys != xs)
    ensures Measure(ys) <= Measure(xs) && (changed ==> Measure(ys) < Measure(xs))
  {
    var x := DependOnLocal(TaintBy(xs[user], xs[used]), depth[used]);
    changed := x.obj != xs[user].obj || x.loc != xs[user].loc || x.locMax != xs[user].locMax;
    ys := xs[user := x];
    MeasureUpdate(xs, user, x);
  }

  /** From `xs` to `ys` by propagation only; `changed` iff anything moved. */
  ghost predicate Moved(xs0: seq<Analysis>, xs: seq<Analysis>, ys: seq<Analysis>, depth: seq<Depth>, specs: seq<Spec>,
                        changed: bool)
  {
    && |ys| == |xs| && Attained(ys, xs0, depth, specs) && CoversAll(ys, xs)
    && Measure(ys) <= Measure(xs) && (if changed then Measure(ys) < Measure(xs) else ys == xs)
  }

  lemma NotMoved(xs0: seq<Analysis>, xs: seq<Analysis>, depth: seq<Depth>, specs: seq<Spec>)
    requires Attained(xs, xs0, depth, specs)
    ensures Moved(xs0, xs, xs, depth, specs, false)
  {}

  lemma MovedTwice(xs0: seq<Analysis>, xs: seq<Analysis>, ys: seq<Analysis>, zs: seq<Analysis>, depth: seq<Depth>,
                   specs: seq<Spec>, c: bool, d: bool)
    requires Moved(xs0, xs, ys, depth, specs, c) && Moved(xs0, ys, zs, depth, specs, d)
    ensures Moved(xs0, xs, zs, depth, specs, c || d)
  {
    hide Attained;
  }

  /** All references of one group, for one of its ids. */
  method PropagateRefs(ghost xs0: seq<Analysis>, xs: seq<Analysis>, depth: seq<Depth>, specs: seq<Spec>, i: nat, user: nat)
    returns (ys: seq<Analysis>, changed: bool)
    requires i < |specs| && specs[i].lo <= user < specs[i].hi && InBounds(specs, |xs|)
    requires Attained(xs, xs0, depth, specs) && |depth| == |xs|
    ensures Moved(xs0, xs, ys, depth, specs, changed)
    ensures !changed ==> forall v: nat :: v in specs[i].refs ==> v < |xs| && Settled(xs, depth, user, v)
  {
    hide Measure, Edge, Inherit, Attained, CoversAll;
    var refs := specs[i].refs;
    ys, changed := xs, false;
    NotMoved(xs0, xs, depth, specs);
    for k := 0 to |refs|
      invariant Moved(xs0, xs, ys, depth, specs, changed)
      invariant !changed ==> forall j :: 0 <= j < k ==> refs[j] < |xs| && Settled(xs, depth, user, refs[j])
    {
      RefIsEdge(specs, i, user, refs[k]);
      AttainedStep(ys, xs0, depth, specs, user, refs[k]);
      ghost var before, was := ys, changed;
      var c;
      ys, c := PropagateAnalysis(ys, depth, user, refs[k]);
      MovedTwice(xs0, xs, before, ys, depth, specs, was, c);
      changed := changed || c;
    }
  }

  lemma RefIsEdge(specs: seq<Spec>, i: nat, u: nat, v: nat)
    requires i < |specs| && specs[i].lo <= u < specs[i].hi && v in specs[i].refs
    ensures Edge(specs, u, v)
  {}

  /** One round over all groups and all their ids. */
  method PropagateRound(ghost xs0: seq<Analysis>, xs: seq<Analysis>, depth: seq<Depth>, specs: seq<Spec>)
    returns (ys: seq<Analysis>, changed: bool)
    requires InBounds(specs, |xs|) && Attained(xs, xs0, depth, specs) && |depth| == |xs|
    ensures Moved(xs0, xs, ys, depth, specs, changed)
    ensures !changed ==> Closed(xs, depth, specs)
  {
    hide Measure, Attained, Edge;
    ys, changed := xs, false;
    for i := 0 to |specs|
      invariant Moved(xs0, xs, ys, depth, specs, changed)
      invariant !changed ==> forall j :: 0 <= j < i ==> SpecSettled(xs, depth, specs[j], specs[j].hi)
    {
      var c;
      ghost var before, was := ys, changed;
      ys, c := PropagateSpec(xs0, ys, depth, specs, i);
      MovedTwice(xs0, xs, before, ys, depth, specs, was, c);
      changed := changed || c;
    }
    if !changed { SettledIsClosed(xs, depth, specs); }
  }

  /** One round over the ids of one group. */
  method PropagateSpec(ghost xs0: seq<Analysis>, xs: seq<Analysis>, depth: seq<Depth>, specs: seq<Spec>, i: nat)
    returns (ys: seq<Analysis>, changed: bool)
    requires i < |specs| && InBounds(specs, |xs|) && Attained(xs, xs0, depth, specs) && |depth| == |xs|
    ensures Moved(xs0, xs, ys, depth, specs, changed)
    ensures !changed ==> SpecSettled(xs, depth, specs[i], specs[i].hi)
  {
    hide Measure, Attained, Settled;
    ys, changed := xs, false;
    var user := specs[i].lo;
    while user < specs[i].hi
      invariant specs[i].lo <= user && Moved(xs0, xs, ys, depth, specs, changed)
      invariant !changed ==> SpecSettled(xs, depth, specs[i], user)
    {
      var c;
      ghost var before, was := ys, changed;
      ys, c := PropagateRefs(xs0, ys, depth, specs, i, user);
      MovedTwice(xs0, xs, before, ys, depth, specs, was, c);
      changed := changed || c;
      user := user + 1;
    }
  }

  ghost predicate SpecSettled(xs: seq<Analysis>, depth: seq<Depth>, s: Spec, upTo: nat) {
    |depth| == |xs| && forall u: nat, v: nat :: s.lo <= u < upTo && v in s.refs ==> u < |xs| && v < |xs| && Settled(xs, depth, u, v)
  }

  lemma SettledIsClosed(xs: seq<Analysis>, depth: seq<Depth>, specs: seq<Spec>)
    requires |depth| == |xs| && forall j :: 0 <= j < |specs| ==> SpecSettled(xs, depth, specs[j], specs[j].hi)
    ensures Closed(xs, depth, specs)
  {
    forall u: nat, v: nat | Edge(specs, u, v) && u < |xs| && v < |xs| ensures Settled(xs, depth, u, v) {
      var i :| 0 <= i < |specs| && specs[i].lo <= u < specs[i].hi && v in specs[i].refs;
      assert SpecSettled(xs, depth, specs[i], specs[i].hi);
    }
  }

  /** The loop: rounds until one changes nothing. */
  method PropagateAll(xs: seq<Analysis>, depth: seq<Depth>, c: Closures) returns (ys: seq<Analysis>)
    requires WellShaped(c) && |depth| == |xs| && InBounds(Specs(c), |xs|)
    ensures CoversAll(ys, xs) && Closed(ys, depth, Specs(c)) && Attained(ys, xs, depth, Specs(c))
  {
    hide Measure, Attained, Edge;
    var specs := IterSpecs(c);
    ys := xs;
    AttainedStart(xs, depth, specs);
    var changed := true;
    while changed
      invariant Attained(ys, xs, depth, specs) && CoversAll(ys, xs)
      invariant !changed ==> Closed(ys, depth, specs)
      decreases Measure(ys), changed
    {
      ys, changed := PropagateRound(xs, ys, depth, specs);
    }
  }

  lemma {:induction false} ClosedAlong(xs: seq<Analysis>, depth: seq<Depth>, specs: seq<Spec>, p: seq<nat>)
    requires Closed(xs, depth, specs) && InBounds(specs, |xs|) && Path(specs, p) && p[0] < |xs|
    ensures p[|p| - 1] < |xs| && Covers(xs[p[0]], xs[p[|p| - 1]])
    ensures |p| > 1 ==> xs[p[0]].loc <= depth[p[|p| - 1]] <= xs[p[0]].locMax
    decreases |p|
  {
    if |p| > 1 {
      assert Edge(specs, p[0], p[1]);
      assert Settled(xs, depth, p[0], p[1]);
      assert forall i :: 0 <= i < |p| - 1 ==> p[1..][i] == p[i + 1];
      forall i | 0 <= i < |p[1..]| - 1 ensures Edge(specs, p[1..][i], p[1..][i + 1]) {
        assert Edge(specs, p[i + 1], p[i + 1 + 1]);
      }
      ClosedAlong(xs, depth, specs, p[1..]);
    }
  }

  /** What the loop leaves is the join, over all siblings reachable from a binding, of their own
      dependencies and, for those actually referenced, of their frame depth. */
  lemma JoinOverReachable(xs: seq<Analysis>, ys: seq<Analysis>, depth: seq<Depth>, specs: seq<Spec>, u: nat, v: nat)
    requires CoversAll(ys, xs) && Closed(ys, depth, specs) && InBounds(specs, |xs|) && u < |xs|
    requires Reaches(specs, u, v)
    ensures v < |xs| && Covers(ys[u], xs[v])
    ensures Refers(specs, u, v) ==> ys[u].loc <= depth[v] <= ys[u].locMax
  {
    if Refers(specs, u, v) {
      var p :| Path(specs, p) && |p| > 1 && p[0] == u && p[|p| - 1] == v;
      ClosedAlong(ys, depth, specs, p);
    }
  }

  /** It is also the least assignment that covers the given one and inherits along every reference. */
  lemma LeastFixpoint(xs: seq<Analysis>, ys: seq<Analysis>, zs: seq<Analysis>, depth: seq<Depth>, specs: seq<Spec>)
    requires Attained(ys, xs, depth, specs) && InBounds(specs, |xs|)
    requires CoversAll(zs, xs) && Closed(zs, depth, specs)
    ensures CoversAll(zs, ys)
  {
    forall u | 0 <= u < |ys| ensures Covers(zs[u], ys[u]) {
      var a :| 0 <= a < |xs| && Reaches(specs, u, a) && xs[a].obj == ys[u].obj;
      JoinOverReachable(xs, zs, depth, specs, u, a);
      var b :| 0 <= b < |xs| && Reaches(specs, u, b)
               && (xs[b].loc == ys[u].loc || (Refers(specs, u, b) && depth[b] == ys[u].loc));
      JoinOverReachable(xs, zs, depth, specs, u, b);
      var m :| 0 <= m < |xs| && Reaches(specs, u, m)
               && (xs[m].locMax == ys[u].locMax || (Refers(specs, u, m) && depth[m] == ys[u].locMax));
      JoinOverReachable(xs, zs, depth, specs, u, m);
    }
  }

  // ---------------------------------------------------------------- the use loop

  /** Each mark was put on some binding that reaches its holder. */
  ghost predicate MarksFrom(us: seq<Depth>, us0: seq<Depth>, specs: seq<Spec>) {
    |us| == |us0| && forall v :: 0 <= v < |us| ==> MarkFrom(us0, specs, v, us[v])
  }

  ghost predicate MarkFrom(us0: seq<Depth>, specs: seq<Spec>, v: nat, d: Depth) {
    exists u :: 0 <= u < |us0| && Reaches(specs, u, v) && us0[u] == d
  }

  ghost predicate MarksClosed(us: seq<Depth>, specs: seq<Spec>) {
    forall u: nat, v: nat :: Edge(specs, u, v) && u < |us| && v < |us| ==> us[v] <= us[u]
  }

  ghost predicate Lower(us: seq<Depth>, vs: seq<Depth>) {
    |us| == |vs| && forall i :: 0 <= i < |us| ==> us[i] <= vs[i]
  }

  ghost function Total(us: seq<Depth>): nat {
    if us == [] then 0 else Total(us[..|us| - 1]) + us[|us| - 1]
  }

  lemma {:induction false} TotalUpdate(us: seq<Depth>, v: nat, d: Depth)
    requires v < |us|
    ensures Total(us[v := d]) == Total(us) - us[v] + d
    decreases |us|
  {
    var n := |us| - 1;
    if v < n {
      assert us[v := d][..n] == us[..n][v := d];
      TotalUpdate(us[..n], v, d);
    } else {
      assert us[v := d][..n] == us[..n];
    }
  }

  ghost predicate Marked(us0: seq<Depth>, us: seq<Depth>, vs: seq<Depth>, specs: seq<Spec>, changed: bool) {
    && |vs| == |us| && MarksFrom(vs, us0, specs) && Lower(vs, us)
    && (if changed then Total(vs) < Total(us) else vs == us)
  }

  lemma MarksStart(us: seq<Depth>, specs: seq<Spec>)
    ensures MarksFrom(us, us, specs)
  {
    forall v | 0 <= v < |us| ensures MarkFrom(us, specs, v, us[v]) { assert Reaches(specs, v, v); }
  }

  /** The earliest use of any id of a group. */
  method EarliestUse(us: seq<Depth>, s: Spec) returns (m: Depth, ghost at: nat)
    requires s.hi <= |us|
    ensures forall u :: s.lo <= u < s.hi ==> m <= us[u]
    ensures m != MAX ==> s.lo <= at < s.hi && us[at] == m
  {
    m, at := MAX, 0;
    var u := s.lo;
    while u < s.hi
      invariant s.lo <= u && forall w :: s.lo <= w < u && w < s.hi ==> m <= us[w]
      invariant m != MAX ==> s.lo <= at < s.hi && us[at] == m
    {
      if us[u] < m { m, at := us[u], u; }
      u := u + 1;
    }
  }

  method MarkSpec(ghost us0: seq<Depth>, us: seq<Depth>, specs: seq<Spec>, i: nat) returns (vs: seq<Depth>, changed: bool)
    requires i < |specs| && InBounds(specs, |us|) && MarksFrom(us, us0, specs)
    ensures Marked(us0, us, vs, specs, changed)
    ensures !changed ==> forall u: nat, v :: specs[i].lo <= u < specs[i].hi && v in specs[i].refs ==> v < |us| && us[v] <= us[u]
  {
    vs, changed := us, false;
    var m; ghost var at;
    m, at := EarliestUse(us, specs[i]);
    if m == MAX { return; }
    hide MarksFrom, Total, Edge;
    var refs := specs[i].refs;
    for k := 0 to |refs|
      invariant Marked(us0, us, vs, specs, changed) && vs[at] <= m
      invariant !changed ==> forall j :: 0 <= j < k ==> refs[j] < |us| && us[refs[j]] <= m
      invariant changed || vs[at] == m
    {
      assert refs[k] in specs[i].refs;
      if m < vs[refs[k]] {
        RefIsEdge(specs, i, at, refs[k]);
        MarkLower(us0, us, vs, specs, changed, at, refs[k], m);
        vs := vs[refs[k] := m];
        changed := true;
      }
    }
  }

  /** Writing the group's earliest use `m`, read before the group's own marks moved. */
  lemma MarkLower(us0: seq<Depth>, us: seq<Depth>, vs: seq<Depth>, specs: seq<Spec>, c: bool, at: nat, v: nat, m: Depth)
    requires Marked(us0, us, vs, specs, c) && MarksFrom(us, us0, specs) && Edge(specs, at, v)
    requires at < |us| && v < |us| && us[at] == m < vs[v]
    ensures Marked(us0, us, vs[v := m], specs, true)
  {
    var a :| 0 <= a < |us0| && Reaches(specs, a, at) && us0[a] == m by { assert MarkFrom(us0, specs, at, us[at]); }
    RefersThenEdge(specs, a, at, v);
    TotalUpdate(vs, v, m);
    var ws := vs[v := m];
    forall w | 0 <= w < |us| ensures MarkFrom(us0, specs, w, ws[w]) {
      if w == v { assert Reaches(specs, a, v); } else { assert MarkFrom(us0, specs, w, vs[w]); }
    }
  }

  method MarkRound(ghost us0: seq<Depth>, us: seq<Depth>, specs: seq<Spec>) returns (vs: seq<Depth>, changed: bool)
    requires InBounds(specs, |us|) && MarksFrom(us, us0, specs)
    ensures Marked(us0, us, vs, specs, changed)
    ensures !changed ==> MarksClosed(us, specs)
  {
    hide MarksFrom, Total;
    vs, changed := us, false;
    for i := 0 to |specs|
      invariant Marked(us0, us, vs, specs, changed)
      invariant !changed ==> forall j, u: nat, v ::
        0 <= j < i && specs[j].lo <= u < specs[j].hi && v in specs[j].refs ==> us[v] <= us[u]
    {
      var c;
      vs, c := MarkSpec(us0, vs, specs, i);
      changed := changed || c;
    }
  }

  /** Marks spread from the bindings used by the frame's body to everything they refer to. */
  method MarkUsed(us: seq<Depth>, c: Closures) returns (vs: seq<Depth>)
    requires WellShaped(c) && InBounds(Specs(c), |us|)
    ensures |vs| == |us| && MarksFrom(vs, us, Specs(c)) && Lower(vs, us) && MarksClosed(vs, Specs(c))
  {
    hide MarksFrom, MarksClosed, Total, Specs, InBounds, WellShaped;
    var specs := IterSpecs(c);
    vs := us;
    MarksStart(us, specs);
    var changed := true;
    while changed
      invariant |vs| == |us| && MarksFrom(vs, us, specs) && Lower(vs, us)
      invariant !changed ==> MarksClosed(vs, specs)
      decreases Total(vs), changed
    {
      vs, changed := MarkRound(us, vs, specs);
    }
  }

  lemma {:induction false} MarksAlong(us: seq<Depth>, specs: seq<Spec>, p: seq<nat>)
    requires MarksClosed(us, specs) && InBounds(specs, |us|) && Path(specs, p) && p[0] < |us|
    ensures p[|p| - 1] < |us| && us[p[|p| - 1]] <= us[p[0]]
    decreases |p|
  {
    if |p| > 1 {
      assert Edge(specs, p[0], p[1]);
      forall i | 0 <= i < |p[1..]| - 1 ensures Edge(specs, p[1..][i], p[1..][i + 1]) {
        assert Edge(specs, p[i + 1], p[i + 1 + 1]);
      }
      MarksAlong(us, specs, p[1..]);
    }
  }

  /** A local ends up used exactly when a used binding refers to it, directly or through others. */
  lemma UsedIffReached(us: seq<Depth>, vs: seq<Depth>, specs: seq<Spec>, v: nat)
    requires InBounds(specs, |us|) && MarksFrom(vs, us, specs) && Lower(vs, us) && MarksClosed(vs, specs) && v < |us|
    ensures vs[v] != MAX <==> exists u :: 0 <= u < |us| && Reaches(specs, u, v) && us[u] != MAX
  {
    if vs[v] != MAX {
      assert MarkFrom(us, specs, v, vs[v]);
    }
    forall u | 0 <= u < |us| && Reaches(specs, u, v) && us[u] != MAX ensures vs[v] != MAX {
      if u != v {
        var p :| Path(specs, p) && |p| > 1 && p[0] == u && p[|p| - 1] == v;
        MarksAlong(vs, specs, p);
      }
    }
  }
}
