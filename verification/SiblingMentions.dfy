/** From the siblings that each value of a frame mentions to the record that the dependency loop runs
    on. Values are analysed in order, and a mention of a sibling that has been analysed already is
    settled at once with what is known about it then, so it is not recorded. */
module SiblingMentions {
  import opened Siblings

  /** One mention in the value of a sibling, `done` being the analyses of the ones before it. */
  function Use(acc: Analysis, done: seq<Analysis>, m: nat, d: Depth): Analysis {
    if m < |done| then Inherit(acc, done[m], d) else DependOnLocal(acc, d)
  }

  function UseAll(acc: Analysis, done: seq<Analysis>, ms: seq<nat>, d: Depth): Analysis {
    if ms == [] then acc else Use(UseAll(acc, done, ms[..|ms| - 1], d), done, ms[|ms| - 1], d)
  }

  /** What is known about the first `k` values when they have been analysed; `own` is what they depend
      on apart from their siblings, all of which live at depth `d`. */
  function Start(own: seq<Analysis>, mentions: seq<seq<nat>>, d: Depth, k: nat): (r: seq<Analysis>)
    requires k <= |own| == |mentions|
    ensures |r| == k
  {
    if k == 0 then []
    else
      var done := Start(own, mentions, d, k - 1);
      done + [UseAll(own[k - 1], done, mentions[k - 1], d)]
  }

  /** The mentions of siblings from the `i`-th on, or before it. */
  function Late(ms: seq<nat>, i: nat): (r: seq<nat>)
    ensures forall m :: m in r <==> m in ms && m >= i
  {
    if ms == [] then []
    else
      var m := ms[|ms| - 1];
      assert forall x :: x in ms <==> x in ms[..|ms| - 1] || x == m;
      Late(ms[..|ms| - 1], i) + if m >= i then [m] else []
  }

  function Early(ms: seq<nat>, i: nat): (r: seq<nat>)
    ensures forall m :: m in r <==> m in ms && m < i
  {
    if ms == [] then []
    else
      var m := ms[|ms| - 1];
      assert forall x :: x in ms <==> x in ms[..|ms| - 1] || x == m;
      Early(ms[..|ms| - 1], i) + if m < i then [m] else []
  }

  function References(mentions: seq<seq<nat>>): seq<Spec> {
    seq(|mentions|, i requires 0 <= i < |mentions| => Spec(mentions[i], i, i + 1))
  }

  function Recorded(mentions: seq<seq<nat>>): seq<Spec> {
    seq(|mentions|, i requires 0 <= i < |mentions| => Spec(Late(mentions[i], i), i, i + 1))
  }

  function SettledAtOnce(mentions: seq<seq<nat>>): seq<Spec> {
    seq(|mentions|, i requires 0 <= i < |mentions| => Spec(Early(mentions[i], i), i, i + 1))
  }

  lemma Edges(mentions: seq<seq<nat>>, u: nat, v: nat)
    ensures Edge(References(mentions), u, v) <==> u < |mentions| && v in mentions[u]
    ensures Edge(Recorded(mentions), u, v) <==> u < |mentions| && v in mentions[u] && v >= u
    ensures Edge(SettledAtOnce(mentions), u, v) <==> u < |mentions| && v in mentions[u] && v < u
  {
    if u < |mentions| {
      var r, l, e := References(mentions), Recorded(mentions), SettledAtOnce(mentions);
      assert r[u].lo <= u < r[u].hi && l[u].lo <= u < l[u].hi && e[u].lo <= u < e[u].hi;
      assert v in mentions[u] ==> v in r[u].refs;
      assert v in mentions[u] && v >= u ==> v in l[u].refs;
      assert v in mentions[u] && v < u ==> v in e[u].refs;
    }
  }

  ghost predicate AllSiblings(mentions: seq<seq<nat>>) {
    forall i, m :: 0 <= i < |mentions| && m in mentions[i] ==> m < |mentions|
  }

  function Depths(n: nat, d: Depth): seq<Depth> { seq(n, _ => d) }

  /** The least analyses that cover `own` and inherit along all the references `specs`. */
  ghost predicate Solves(ys: seq<Analysis>, own: seq<Analysis>, d: Depth, specs: seq<Spec>) {
    CoversAll(ys, own) && Closed(ys, Depths(|own|, d), specs) && Attained(ys, own, Depths(|own|, d), specs)
  }

  // ---------------------------------------------------------------- what is known before the loop

  lemma {:induction false} UseAllCovers(acc: Analysis, done: seq<Analysis>, ms: seq<nat>, d: Depth)
    ensures var a := UseAll(acc, done, ms, d);
            && Covers(a, acc) && (ms != [] ==> a.loc <= d <= a.locMax)
            && forall m :: m in ms && m < |done| ==> Covers(a, done[m])
    decreases |ms|
  {
    if ms != [] {
      var init, last := ms[..|ms| - 1], ms[|ms| - 1];
      UseAllCovers(acc, done, init, d);
      UseCovers(UseAll(acc, done, init, d), done, last, d);
      hide Use, Covers;
      var a := UseAll(acc, done, ms, d);
      forall m | m in ms && m < |done| ensures Covers(a, done[m]) {
        if m != last { CoversOn(a, UseAll(acc, done, init, d), done[m]); }
      }
      CoversOn(a, UseAll(acc, done, init, d), acc);
    }
  }

  lemma UseCovers(a: Analysis, done: seq<Analysis>, m: nat, d: Depth)
    ensures var b := Use(a, done, m, d);
            Covers(b, a) && b.loc <= d <= b.locMax && (m < |done| ==> Covers(b, done[m]))
  {}

  lemma CoversOn(a: Analysis, b: Analysis, c: Analysis)
    requires Covers(a, b) && Covers(b, c)
    ensures Covers(a, c)
  {}

  /** Each component comes from the value itself, from a sibling before it, or is the frame's depth. */
  ghost predicate From(a: Analysis, acc: Analysis, done: seq<Analysis>, ms: seq<nat>, d: Depth) {
    && (a.obj == acc.obj || exists m :: m in ms && m < |done| && done[m].obj == a.obj)
    && (a.loc == acc.loc || a.loc == d || exists m :: m in ms && m < |done| && done[m].loc == a.loc)
    && (a.locMax == acc.locMax || a.locMax == d || exists m :: m in ms && m < |done| && done[m].locMax == a.locMax)
  }

  lemma {:induction false} UseAllFrom(acc: Analysis, done: seq<Analysis>, ms: seq<nat>, d: Depth)
    ensures From(UseAll(acc, done, ms, d), acc, done, ms, d)
    decreases |ms|
  {
    if ms != [] {
      var b, init, m := UseAll(acc, done, ms[..|ms| - 1], d), ms[..|ms| - 1], ms[|ms| - 1];
      UseAllFrom(acc, done, init, d);
      assert m in ms && forall x :: x in init ==> x in ms;
    }
  }

  lemma {:induction false} StartAt(own: seq<Analysis>, mentions: seq<seq<nat>>, d: Depth, k: nat, i: nat)
    requires i < k <= |own| == |mentions|
    ensures Start(own, mentions, d, k)[..i + 1] == Start(own, mentions, d, i + 1)
    ensures Start(own, mentions, d, k)[i] == UseAll(own[i], Start(own, mentions, d, i), mentions[i], d)
    decreases k
  {
    var s := Start(own, mentions, d, k);
    if i < k - 1 {
      StartAt(own, mentions, d, k - 1, i);
      assert s[..i + 1] == Start(own, mentions, d, k - 1)[..i + 1];
    } else {
      assert s[..k] == s;
    }
  }

  /** A value covers everything that it reaches through siblings before it. */
  lemma {:induction false} StartCovers(own: seq<Analysis>, mentions: seq<seq<nat>>, d: Depth, i: nat)
    requires i < |own| == |mentions|
    ensures var s := Start(own, mentions, d, |own|);
            && Covers(s[i], own[i]) && (mentions[i] != [] ==> s[i].loc <= d <= s[i].locMax)
            && forall m :: m in mentions[i] && m < i ==> Covers(s[i], s[m])
  {
    StartAt(own, mentions, d, |own|, i);
    UseAllCovers(own[i], Start(own, mentions, d, i), mentions[i], d);
    forall m | m in mentions[i] && m < i ensures Start(own, mentions, d, i)[m] == Start(own, mentions, d, |own|)[m] {
      StartAt(own, mentions, d, i, m);
      StartAt(own, mentions, d, |own|, m);
    }
  }

  ghost predicate Comes(a: Analysis, own: seq<Analysis>, specs: seq<Spec>, i: nat, d: Depth) {
    && (exists b :: 0 <= b < |own| && Reaches(specs, i, b) && own[b].obj == a.obj)
    && (a.loc == d || exists b :: 0 <= b < |own| && Reaches(specs, i, b) && own[b].loc == a.loc)
    && (a.locMax == d || exists b :: 0 <= b < |own| && Reaches(specs, i, b) && own[b].locMax == a.locMax)
  }

  lemma ComesBack(a: Analysis, own: seq<Analysis>, specs: seq<Spec>, i: nat, m: nat, d: Depth)
    requires Comes(a, own, specs, m, d) && Edge(specs, i, m)
    ensures Comes(a, own, specs, i, d)
  {
    forall b | 0 <= b < |own| && Reaches(specs, m, b) ensures Reaches(specs, i, b) { EdgeThenRefers(specs, i, m, b); }
  }

  lemma {:induction false} StartComes(own: seq<Analysis>, mentions: seq<seq<nat>>, d: Depth, i: nat)
    requires i < |own| == |mentions|
    ensures Comes(Start(own, mentions, d, |own|)[i], own, SettledAtOnce(mentions), i, d)
    decreases i
  {
    var s, done, specs := Start(own, mentions, d, |own|), Start(own, mentions, d, i), SettledAtOnce(mentions);
    StartAt(own, mentions, d, |own|, i);
    UseAllFrom(own[i], done, mentions[i], d);
    assert Reaches(specs, i, i);
    hide Comes, Edge, Refers;
    forall m | m in mentions[i] && m < i ensures Comes(done[m], own, specs, i, d) {
      StartAt(own, mentions, d, i, m);
      StartAt(own, mentions, d, |own|, m);
      StartComes(own, mentions, d, m);
      Edges(mentions, i, m);
      ComesBack(done[m], own, specs, i, m, d);
    }
    Pick(s[i], own, done, mentions[i], specs, i, d);
  }

  lemma Pick(a: Analysis, own: seq<Analysis>, done: seq<Analysis>, ms: seq<nat>, specs: seq<Spec>, i: nat, d: Depth)
    requires i < |own| && From(a, own[i], done, ms, d) && Reaches(specs, i, i) && |done| == i
    requires forall m :: m in ms && m < i ==> Comes(done[m], own, specs, i, d)
    ensures Comes(a, own, specs, i, d)
  {
    hide Refers;
  }

  // ---------------------------------------------------------------- the loop on what was recorded

  /** `k` is reached from `i` by references forwards, and from there by references backwards. */
  ghost predicate Gets(mentions: seq<seq<nat>>, i: nat, k: nat) {
    exists u :: 0 <= u < |mentions| && Reaches(Recorded(mentions), i, u) && Reaches(SettledAtOnce(mentions), u, k)
  }

  /** Everything a value refers to, in any way, it also refers to forwards first and backwards then. */
  ghost predicate Complete(mentions: seq<seq<nat>>) {
    forall i, k :: 0 <= i < |mentions| && 0 <= k < |mentions| && Refers(References(mentions), i, k) ==> Gets(mentions, i, k)
  }

  lemma {:induction false} PathWithin(mentions: seq<seq<nat>>, specs: seq<Spec>, p: seq<nat>)
    requires Path(specs, p) && forall u, v :: Edge(specs, u, v) ==> Edge(References(mentions), u, v)
    ensures Path(References(mentions), p)
  {}

  lemma ReachesWithin(mentions: seq<seq<nat>>, specs: seq<Spec>, u: nat, v: nat)
    requires specs == Recorded(mentions) || specs == SettledAtOnce(mentions)
    requires Reaches(specs, u, v)
    ensures Reaches(References(mentions), u, v)
  {
    forall x, y | Edge(specs, x, y) ensures Edge(References(mentions), x, y) { Edges(mentions, x, y); }
    if u != v {
      var p :| Path(specs, p) && |p| > 1 && p[0] == u && p[|p| - 1] == v;
      PathWithin(mentions, specs, p);
    }
  }

  lemma {:induction false} PathJoins(specs: seq<Spec>, p: seq<nat>, w: nat)
    requires Path(specs, p) && Reaches(specs, p[|p| - 1], w)
    ensures Reaches(specs, p[0], w) && (|p| > 1 ==> Refers(specs, p[0], w))
    decreases |p|
  {
    if |p| > 1 {
      assert forall i :: 0 <= i < |p| - 1 ==> p[1..][i] == p[i + 1];
      forall i | 0 <= i < |p[1..]| - 1 ensures Edge(specs, p[1..][i], p[1..][i + 1]) { assert Edge(specs, p[i + 1], p[i + 1 + 1]); }
      PathJoins(specs, p[1..], w);
      assert Edge(specs, p[0], p[1]);
      EdgeThenRefers(specs, p[0], p[1], w);
    }
  }

  lemma ReachesJoin(specs: seq<Spec>, u: nat, v: nat, w: nat)
    requires Reaches(specs, u, v) && Reaches(specs, v, w)
    ensures Reaches(specs, u, w)
  {
    if u != v {
      var p :| Path(specs, p) && |p| > 1 && p[0] == u && p[|p| - 1] == v;
      PathJoins(specs, p, w);
    }
  }

  lemma {:induction false} BackCovers(own: seq<Analysis>, mentions: seq<seq<nat>>, d: Depth, p: seq<nat>)
    requires |own| == |mentions| && Path(SettledAtOnce(mentions), p) && p[0] < |own|
    ensures p[|p| - 1] < |own| && Covers(Start(own, mentions, d, |own|)[p[0]], own[p[|p| - 1]])
    decreases |p|
  {
    var specs := SettledAtOnce(mentions);
    StartCovers(own, mentions, d, p[0]);
    if |p| > 1 {
      assert Edge(specs, p[0], p[1]);
      Edges(mentions, p[0], p[1]);
      assert forall i :: 0 <= i < |p| - 1 ==> p[1..][i] == p[i + 1];
      forall i | 0 <= i < |p[1..]| - 1 ensures Edge(specs, p[1..][i], p[1..][i + 1]) { assert Edge(specs, p[i + 1], p[i + 1 + 1]); }
      BackCovers(own, mentions, d, p[1..]);
    }
  }

  lemma RecordedInBounds(mentions: seq<seq<nat>>)
    requires AllSiblings(mentions)
    ensures InBounds(Recorded(mentions), |mentions|) && InBounds(References(mentions), |mentions|)
  {}

  /** The loop's answer covers what is reached forwards first and backwards then. */
  lemma GetsCovers(own: seq<Analysis>, mentions: seq<seq<nat>>, d: Depth, ys: seq<Analysis>, i: nat, k: nat)
    requires |own| == |mentions| && AllSiblings(mentions) && i < |own| && Gets(mentions, i, k)
    requires Solves(ys, Start(own, mentions, d, |own|), d, Recorded(mentions))
    ensures k < |own| && Covers(ys[i], own[k])
  {
    var s := Start(own, mentions, d, |own|);
    var u :| 0 <= u < |mentions| && Reaches(Recorded(mentions), i, u) && Reaches(SettledAtOnce(mentions), u, k);
    RecordedInBounds(mentions);
    JoinOverReachable(s, ys, Depths(|own|, d), Recorded(mentions), i, u);
    if u == k {
      StartCovers(own, mentions, d, u);
    } else {
      var p :| Path(SettledAtOnce(mentions), p) && |p| > 1 && p[0] == u && p[|p| - 1] == k;
      BackCovers(own, mentions, d, p);
    }
  }

  /** Where an answer of the loop comes from, in terms of the values' own dependencies. */
  lemma AnswerComes(own: seq<Analysis>, mentions: seq<seq<nat>>, d: Depth, ys: seq<Analysis>, i: nat)
    requires |own| == |mentions| && AllSiblings(mentions) && i < |own|
    requires Solves(ys, Start(own, mentions, d, |own|), d, Recorded(mentions))
    ensures |ys| == |own| && exists b :: 0 <= b < |own| && Gets(mentions, i, b) && own[b].obj == ys[i].obj
    ensures ys[i].loc == d || exists b :: 0 <= b < |own| && Gets(mentions, i, b) && own[b].loc == ys[i].loc
    ensures ys[i].locMax == d || exists b :: 0 <= b < |own| && Gets(mentions, i, b) && own[b].locMax == ys[i].locMax
  {
    var s, specs, depth := Start(own, mentions, d, |own|), Recorded(mentions), Depths(|own|, d);
    hide Reaches, Refers, Start, CoversAll, Closed, Recorded;
    forall a | 0 <= a < |own| ensures Comes(s[a], own, SettledAtOnce(mentions), a, d) { StartComes(own, mentions, d, a); }
    assert ObjFrom(s, specs, i, ys[i].obj) && LocFrom(s, depth, specs, i, ys[i].loc) && MaxFrom(s, depth, specs, i, ys[i].locMax);
    Steps(own, mentions, s, d, ys[i], i);
  }

  lemma Steps(own: seq<Analysis>, mentions: seq<seq<nat>>, s: seq<Analysis>, d: Depth, y: Analysis, i: nat)
    requires |own| == |mentions| == |s|
    requires forall a :: 0 <= a < |own| ==> Comes(s[a], own, SettledAtOnce(mentions), a, d)
    requires ObjFrom(s, Recorded(mentions), i, y.obj) && LocFrom(s, Depths(|own|, d), Recorded(mentions), i, y.loc)
    requires MaxFrom(s, Depths(|own|, d), Recorded(mentions), i, y.locMax)
    ensures exists b :: 0 <= b < |own| && Gets(mentions, i, b) && own[b].obj == y.obj
    ensures y.loc == d || exists b :: 0 <= b < |own| && Gets(mentions, i, b) && own[b].loc == y.loc
    ensures y.locMax == d || exists b :: 0 <= b < |own| && Gets(mentions, i, b) && own[b].locMax == y.locMax
  {
    hide Reaches, Refers, Recorded, SettledAtOnce;
    var specs := Recorded(mentions);
    var a :| 0 <= a < |s| && Reaches(specs, i, a) && s[a].obj == y.obj;
    var b :| 0 <= b < |own| && Reaches(SettledAtOnce(mentions), a, b) && own[b].obj == s[a].obj;
    assert Gets(mentions, i, b);
    if y.loc != d {
      var a :| 0 <= a < |s| && Reaches(specs, i, a) && s[a].loc == y.loc;
      var b :| 0 <= b < |own| && Reaches(SettledAtOnce(mentions), a, b) && own[b].loc == s[a].loc;
      assert Gets(mentions, i, b);
    }
    if y.locMax != d {
      var a :| 0 <= a < |s| && Reaches(specs, i, a) && s[a].locMax == y.locMax;
      var b :| 0 <= b < |own| && Reaches(SettledAtOnce(mentions), a, b) && own[b].locMax == s[a].locMax;
      assert Gets(mentions, i, b);
    }
  }

  lemma GetsRefers(mentions: seq<seq<nat>>, i: nat, j: nat, b: nat)
    requires i < |mentions| && j in mentions[i] && Gets(mentions, j, b)
    ensures Refers(References(mentions), i, b)
  {
    var u :| 0 <= u < |mentions| && Reaches(Recorded(mentions), j, u) && Reaches(SettledAtOnce(mentions), u, b);
    ReachesWithin(mentions, Recorded(mentions), j, u);
    ReachesWithin(mentions, SettledAtOnce(mentions), u, b);
    ReachesJoin(References(mentions), j, u, b);
    Edges(mentions, i, j);
    EdgeThenRefers(References(mentions), i, j, b);
  }

  /** Nothing is missed when every reference is met forwards first and backwards then. */
  lemma NothingMissed(own: seq<Analysis>, mentions: seq<seq<nat>>, d: Depth, ys: seq<Analysis>)
    requires |own| == |mentions| && AllSiblings(mentions) && Complete(mentions)
    requires Solves(ys, Start(own, mentions, d, |own|), d, Recorded(mentions))
    ensures CoversAll(ys, own) && Closed(ys, Depths(|own|, d), References(mentions))
  {
    hide Gets, Refers, Start, Recorded, References, Settled, Complete;
    SolvesSize(own, mentions, d, ys);
    forall i | 0 <= i < |own| ensures Covers(ys[i], own[i]) { StartCovers(own, mentions, d, i); }
    forall i: nat, j: nat | Edge(References(mentions), i, j) && i < |ys| && j < |ys| ensures Settled(ys, Depths(|own|, d), i, j) {
      MentionSettled(own, mentions, d, ys, i, j);
    }
  }

  lemma SolvesSize(own: seq<Analysis>, mentions: seq<seq<nat>>, d: Depth, ys: seq<Analysis>)
    requires |own| == |mentions| && Solves(ys, Start(own, mentions, d, |own|), d, Recorded(mentions))
    ensures |ys| == |own|
  {}

  lemma MentionSettled(own: seq<Analysis>, mentions: seq<seq<nat>>, d: Depth, ys: seq<Analysis>, i: nat, j: nat)
    requires |own| == |mentions| == |ys| && AllSiblings(mentions) && Complete(mentions)
    requires Solves(ys, Start(own, mentions, d, |own|), d, Recorded(mentions))
    requires Edge(References(mentions), i, j) && i < |ys| && j < |ys|
    ensures Settled(ys, Depths(|own|, d), i, j)
  {
    hide Gets, Solves, Refers, Start, Recorded, References, Covers, Complete, AllSiblings;
    Edges(mentions, i, j);
    ReferrerDepth(own, mentions, d, ys, i);
    AnswerComes(own, mentions, d, ys, j);
    forall b | 0 <= b < |own| && Gets(mentions, j, b) ensures Covers(ys[i], own[b]) {
      GetsRefers(mentions, i, j, b);
      RefersCovers(own, mentions, d, ys, i, b);
    }
    CoversPieces(ys[i], ys[j], own, d);
  }

  lemma ReferrerDepth(own: seq<Analysis>, mentions: seq<seq<nat>>, d: Depth, ys: seq<Analysis>, i: nat)
    requires |own| == |mentions| == |ys| && i < |own| && mentions[i] != []
    requires Solves(ys, Start(own, mentions, d, |own|), d, Recorded(mentions))
    ensures ys[i].loc <= d <= ys[i].locMax
  {
    StartCovers(own, mentions, d, i);
  }

  lemma RefersCovers(own: seq<Analysis>, mentions: seq<seq<nat>>, d: Depth, ys: seq<Analysis>, i: nat, b: nat)
    requires |own| == |mentions| == |ys| && AllSiblings(mentions) && Complete(mentions) && i < |own| && b < |own|
    requires Solves(ys, Start(own, mentions, d, |own|), d, Recorded(mentions)) && Refers(References(mentions), i, b)
    ensures Covers(ys[i], own[b])
  {
    hide Gets, Solves, Refers, Start, Recorded, References, Covers, AllSiblings;
    GetsCovers(own, mentions, d, ys, i, b);
  }

  /** `y` covers what each part of `z` comes from. */
  lemma CoversPieces(y: Analysis, z: Analysis, own: seq<Analysis>, d: Depth)
    requires y.loc <= d <= y.locMax
    requires exists b :: 0 <= b < |own| && Covers(y, own[b]) && own[b].obj == z.obj
    requires z.loc == d || exists b :: 0 <= b < |own| && Covers(y, own[b]) && own[b].loc == z.loc
    requires z.locMax == d || exists b :: 0 <= b < |own| && Covers(y, own[b]) && own[b].locMax == z.locMax
    ensures Inherit(y, z, d) == y
  {}

  /** What the loop makes of the record, started on what is known by then, is the least solution of
      all the references, for a frame whose references are all met forwards first and backwards then. */
  lemma RecordSuffices(own: seq<Analysis>, mentions: seq<seq<nat>>, d: Depth, ys: seq<Analysis>, zs: seq<Analysis>)
    requires |own| == |mentions| && AllSiblings(mentions) && Complete(mentions)
    requires Solves(ys, Start(own, mentions, d, |own|), d, Recorded(mentions)) && Solves(zs, own, d, References(mentions))
    ensures ys == zs
  {
    hide Complete, Gets, Edge, Refers, Start, Covers, Closed, Recorded, References;
    NothingMissed(own, mentions, d, ys);
    RecordedInBounds(mentions);
    LeastFixpoint(own, zs, ys, Depths(|own|, d), References(mentions));
    NothingSpurious(own, mentions, d, ys, zs);
    forall i | 0 <= i < |own| ensures ys[i] == zs[i] { SameCover(ys[i], zs[i]); }
  }

  lemma SameCover(a: Analysis, b: Analysis)
    requires Covers(a, b) && Covers(b, a)
    ensures a == b
  {}

  /** The loop never reports a dependency that is not there. */
  lemma NothingSpurious(own: seq<Analysis>, mentions: seq<seq<nat>>, d: Depth, ys: seq<Analysis>, zs: seq<Analysis>)
    requires |own| == |mentions| && AllSiblings(mentions)
    requires Solves(ys, Start(own, mentions, d, |own|), d, Recorded(mentions)) && Solves(zs, own, d, References(mentions))
    ensures CoversAll(zs, ys)
  {
    RecordedInBounds(mentions);
    forall i | 0 <= i < |own| ensures Inherited(zs, mentions[i], d, i) {
      forall m | m in mentions[i] ensures m < |own| && Covers(zs[i], zs[m]) && zs[i].loc <= d <= zs[i].locMax {
        Edges(mentions, i, m);
        assert Settled(zs, Depths(|own|, d), i, m);
      }
    }
    StartBelow(own, mentions, d, zs, |own|);
    assert Closed(zs, Depths(|own|, d), Recorded(mentions)) by {
      forall u: nat, v: nat | Edge(Recorded(mentions), u, v) && u < |zs| && v < |zs| ensures Settled(zs, Depths(|own|, d), u, v) {
        Edges(mentions, u, v);
      }
    }
    LeastFixpoint(Start(own, mentions, d, |own|), ys, zs, Depths(|own|, d), Recorded(mentions));
  }

  lemma {:induction false} UseAllBelow(acc: Analysis, done: seq<Analysis>, ms: seq<nat>, d: Depth, z: Analysis)
    requires Covers(z, acc) && (ms != [] ==> z.loc <= d <= z.locMax)
    requires forall m :: m in ms && m < |done| ==> Covers(z, done[m])
    ensures Covers(z, UseAll(acc, done, ms, d))
    decreases |ms|
  {
    if ms != [] {
      assert forall m :: m in ms[..|ms| - 1] ==> m in ms;
      UseAllBelow(acc, done, ms[..|ms| - 1], d, z);
    }
  }

  ghost predicate Inherited(zs: seq<Analysis>, ms: seq<nat>, d: Depth, i: nat)
    requires i < |zs|
  {
    forall m :: m in ms ==> m < |zs| && Covers(zs[i], zs[m]) && zs[i].loc <= d <= zs[i].locMax
  }

  lemma {:induction false} StartBelow(own: seq<Analysis>, mentions: seq<seq<nat>>, d: Depth, zs: seq<Analysis>, k: nat)
    requires k <= |own| == |mentions| == |zs| && CoversAll(zs, own)
    requires forall i :: 0 <= i < |own| ==> Inherited(zs, mentions[i], d, i)
    ensures forall i :: 0 <= i < k ==> Covers(zs[i], Start(own, mentions, d, k)[i])
    decreases k
  {
    if k > 0 {
      StartBelow(own, mentions, d, zs, k - 1);
      var done := Start(own, mentions, d, k - 1);
      assert Inherited(zs, mentions[k - 1], d, k - 1);
      assert mentions[k - 1] != [] ==> mentions[k - 1][0] in mentions[k - 1];
      UseAllBelow(own[k - 1], done, mentions[k - 1], d, zs[k - 1]);
    }
  }

  /** The value `k` alone depends on the outermost object. */
  function Marker(n: nat, k: nat): (r: seq<Analysis>)
    ensures |r| == n
  {
    seq(n, i => if i == k then Analysis(0, 0, 0) else Nothing)
  }

  /** Otherwise some reference is missed, whatever else the frame contains: if `i` refers to `k` but
      not forwards first and backwards then, what `k` depends on is not passed on to `i`. */
  lemma RecordMisses(mentions: seq<seq<nat>>, d: Depth, i: nat, k: nat, ys: seq<Analysis>, zs: seq<Analysis>)
    requires AllSiblings(mentions) && i < |mentions| && k < |mentions|
    requires Refers(References(mentions), i, k) && !Gets(mentions, i, k)
    requires var own := Marker(|mentions|, k);
             Solves(ys, Start(own, mentions, d, |own|), d, Recorded(mentions)) && Solves(zs, own, d, References(mentions))
    ensures zs[i].obj == 0 && ys[i].obj == MAX
  {
    hide Refers, Start, Recorded, References;
    var own := Marker(|mentions|, k);
    RecordedInBounds(mentions);
    JoinOverReachable(own, zs, Depths(|own|, d), References(mentions), i, k);
    AnswerComes(own, mentions, d, ys, i);
    var b :| 0 <= b < |own| && Gets(mentions, i, b) && own[b].obj == ys[i].obj;
    assert b != k;
  }

  /** `local a = c, b = a, c = v; ...`: when `b` is analysed, `a` is known not to depend on `v`, and
      that `a` refers to `c` comes too late for `b`. */
  lemma MissedExample()
    ensures var ms: seq<seq<nat>> := [[2], [0], []]; AllSiblings(ms) && Refers(References(ms), 1, 2) && !Gets(ms, 1, 2) && !Complete(ms)
  {
    var ms: seq<seq<nat>> := [[2], [0], []];
    Edges(ms, 1, 0);
    Edges(ms, 0, 2);
    EdgeRefers(References(ms), 0, 2);
    EdgeThenRefers(References(ms), 1, 0, 2);
    assert !Gets(ms, 1, 2) by {
      forall u | Reaches(Recorded(ms), 1, u) ensures u == 1 { if u != 1 { FirstEdge(ms, 1, u); } }
      if Reaches(SettledAtOnce(ms), 1, 2) { LastEdge(ms, 1, 2); }
    }
  }

  lemma FirstEdge(ms: seq<seq<nat>>, u: nat, v: nat)
    requires Refers(Recorded(ms), u, v)
    ensures u < |ms| && exists m :: m in ms[u] && m >= u
  {
    var p :| Path(Recorded(ms), p) && |p| > 1 && p[0] == u && p[|p| - 1] == v;
    assert Edge(Recorded(ms), p[0], p[1]);
    Edges(ms, u, p[1]);
  }

  lemma LastEdge(ms: seq<seq<nat>>, u: nat, v: nat)
    requires Refers(SettledAtOnce(ms), u, v)
    ensures exists w: nat :: v < w < |ms| && v in ms[w]
  {
    var p :| Path(SettledAtOnce(ms), p) && |p| > 1 && p[0] == u && p[|p| - 1] == v;
    assert Edge(SettledAtOnce(ms), p[|p| - 2], p[|p| - 2 + 1]);
    Edges(ms, p[|p| - 2], v);
  }

  // ---------------------------------------------------------------- the two steps together

  /** One value: what it depends on as far as known, and the siblings it leaves open. */
  method AnalyzeOne(own: Analysis, done: seq<Analysis>, ms: seq<nat>, d: Depth) returns (a: Analysis, late: seq<nat>)
    ensures a == UseAll(own, done, ms, d) && late == Late(ms, |done|)
  {
    a, late := own, [];
    for k := 0 to |ms|
      invariant a == UseAll(own, done, ms[..k], d) && late == Late(ms[..k], |done|)
    {
      assert ms[..k + 1][..k] == ms[..k];
      a := DependOnLocal(a, d);
      if ms[k] < |done| { a := TaintBy(a, done[ms[k]]); } else { late := late + [ms[k]]; }
    }
    assert ms[..|ms|] == ms;
  }

  /** Analyses the values in order, records what is left open, and settles that. */
  method Dependencies(own: seq<Analysis>, mentions: seq<seq<nat>>, d: Depth) returns (ys: seq<Analysis>)
    requires |own| == |mentions| && AllSiblings(mentions)
    ensures Solves(ys, Start(own, mentions, d, |own|), d, Recorded(mentions))
  {
    hide UseAll, Late, Attained, Closed, CoversAll;
    var done: seq<Analysis>, c := [], Closures(0, [], []);
    for i := 0 to |own|
      invariant done == Start(own, mentions, d, i) && WellShaped(c) && c.first == 0 && Sum(c.shapes).1 == i
      invariant Specs(c) == Recorded(mentions)[..i]
    {
      var a, late := AnalyzeOne(own[i], done, mentions[i], d);
      PushThenIter(c, 1, late);
      assert (c.shapes + [(|late|, 1)])[..|c.shapes|] == c.shapes;
      assert Recorded(mentions)[..i + 1] == Recorded(mentions)[..i] + [Spec(late, i, i + 1)];
      c := PushSpec(c, 1, late);
      done := done + [a];
    }
    assert Recorded(mentions)[..|own|] == Recorded(mentions);
    RecordedInBounds(mentions);
    ys := PropagateAll(done, seq(|own|, _ => d), c);
  }
}
