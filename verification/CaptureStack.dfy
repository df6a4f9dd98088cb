/** The analyzer's stack of closure frames as a value, and what it means for it to be well formed:
    every capture has a source in the frame below that denotes the captured id, the ids a frame
    captures all lie below the frame's own locals, and capture lists only grow at the end. */
module CaptureStack {
  import opened Options
  import opened Syntax
  import opened Resolution
  import opened ResolutionLaws

  datatype Defining = Defining(first: nat, n: nat)

  /** `captures` maps an id to its place among the captures; `sources` are slots of the frame below. */
  datatype Frame = Frame(defining: Option<Defining>, captures: map<nat, nat>, sources: seq<Slot>)

  predicate InFrame(f: Frame, target: nat) {
    f.defining.Some? && f.defining.value.first <= target < f.defining.value.first + f.defining.value.n
  }

  /** The frame whose cells code at level `i` runs in. */
  function Near(fs: seq<Frame>, i: nat): Defining
    requires i < |fs| && fs[0].defining.Some?
  {
    if fs[i].defining.Some? then fs[i].defining.value else Near(fs, i - 1)
  }

  predicate CanResolve(fs: seq<Frame>, i: nat, target: nat)
    requires i < |fs|
  {
    InFrame(fs[i], target) || (i > 0 && CanResolve(fs, i - 1, target))
  }

  /** `cs[i]` lists the ids captured by frame `i`, in pack order. */
  ghost function ViewAt(fs: seq<Frame>, cs: seq<seq<nat>>, i: nat, sup: bool): View
    requires i < |fs| && |cs| == |fs| && fs[0].defining.Some?
  {
    View(cs[i], Near(fs, i).first, Near(fs, i).n, false, sup)
  }

  ghost predicate Indexed(f: Frame, caps: seq<nat>) {
    && |f.sources| == |caps|
    && (forall id :: id in f.captures ==> f.captures[id] < |caps| && caps[f.captures[id]] == id)
    && (forall j :: 0 <= j < |caps| ==> caps[j] in f.captures && f.captures[caps[j]] == j)
  }

  ghost predicate Sourced(f: Frame, caps: seq<nat>, below: View) {
    && |f.sources| == |caps|
    && (forall j :: 0 <= j < |caps| ==> IdOf(below, f.sources[j]) == Some(caps[j]))
    && (f.defining.None? ==> forall j :: 0 <= j < |caps| ==> f.sources[j].SCapture?)
  }

  ghost predicate FrameAt(fs: seq<Frame>, cs: seq<seq<nat>>, i: nat)
    requires i < |fs| && |cs| == |fs| && fs[0].defining.Some?
  {
    && Indexed(fs[i], cs[i])
    && (forall j :: 0 <= j < |cs[i]| ==> cs[i][j] < Near(fs, i).first)
    && (if i == 0 then cs[0] == [] else Sourced(fs[i], cs[i], ViewAt(fs, cs, i - 1, false)))
  }

  ghost predicate StackOk(fs: seq<Frame>, cs: seq<seq<nat>>, next: nat) {
    && |fs| == |cs| > 0 && fs[0].defining.Some?
    && (forall i :: 0 <= i < |fs| ==> FrameAt(fs, cs, i))
    && (forall i :: 0 <= i < |fs| && fs[i].defining.Some? ==> fs[i].defining.value.first + fs[i].defining.value.n <= next)
    && (forall i, j :: 0 <= i < j < |fs| && fs[i].defining.Some? && fs[j].defining.Some? ==>
          fs[i].defining.value.first + fs[i].defining.value.n <= fs[j].defining.value.first)
  }

  // ---------------------------------------------------------------- growth

  ghost predicate FrameGrown(f0: Frame, c0: seq<nat>, f1: Frame, c1: seq<nat>, added: set<nat>) {
    && f1.defining == f0.defining && c0 <= c1 && f0.sources <= f1.sources
    && forall j :: |c0| <= j < |c1| ==> c1[j] in added
  }

  /** Same frames, with captures of ids in `added` appended. */
  ghost predicate Grown(fs: seq<Frame>, cs: seq<seq<nat>>, fs': seq<Frame>, cs': seq<seq<nat>>, added: set<nat>) {
    && |fs'| == |fs| && |cs'| == |cs| == |fs|
    && forall i :: 0 <= i < |fs| ==> FrameGrown(fs[i], cs[i], fs'[i], cs'[i], added)
  }

  lemma GrownRefl(fs: seq<Frame>, cs: seq<seq<nat>>)
    requires |cs| == |fs|
    ensures Grown(fs, cs, fs, cs, {})
  {}

  lemma GrownTrans(fs0: seq<Frame>, cs0: seq<seq<nat>>, fs1: seq<Frame>, cs1: seq<seq<nat>>, fs2: seq<Frame>,
                   cs2: seq<seq<nat>>, a: set<nat>, b: set<nat>, c: set<nat>)
    requires Grown(fs0, cs0, fs1, cs1, a) && Grown(fs1, cs1, fs2, cs2, b) && a <= c && b <= c
    ensures Grown(fs0, cs0, fs2, cs2, c)
  {
    forall i | 0 <= i < |fs0| ensures FrameGrown(fs0[i], cs0[i], fs2[i], cs2[i], c) {
      assert FrameGrown(fs0[i], cs0[i], fs1[i], cs1[i], a) && FrameGrown(fs1[i], cs1[i], fs2[i], cs2[i], b);
      forall j | |cs0[i]| <= j < |cs2[i]| ensures cs2[i][j] in c {
        if j < |cs1[i]| { assert cs2[i][j] == cs1[i][j]; }
      }
    }
  }

  lemma {:induction false} GrownNear(fs: seq<Frame>, cs: seq<seq<nat>>, fs': seq<Frame>, cs': seq<seq<nat>>,
                                     added: set<nat>, i: nat)
    requires Grown(fs, cs, fs', cs', added) && i < |fs| && fs[0].defining.Some?
    ensures fs'[0].defining.Some? && Near(fs', i) == Near(fs, i)
    decreases i
  {
    assert FrameGrown(fs[i], cs[i], fs'[i], cs'[i], added) && FrameGrown(fs[0], cs[0], fs'[0], cs'[0], added);
    if fs[i].defining.None? { GrownNear(fs, cs, fs', cs', added, i - 1); }
  }

  lemma GrownView(fs: seq<Frame>, cs: seq<seq<nat>>, fs': seq<Frame>, cs': seq<seq<nat>>, added: set<nat>, i: nat, sup: bool)
    requires Grown(fs, cs, fs', cs', added) && i < |fs| && fs[0].defining.Some?
    ensures fs'[0].defining.Some? && Grows(ViewAt(fs, cs, i, sup), ViewAt(fs', cs', i, sup))
  {
    GrownNear(fs, cs, fs', cs', added, i);
    assert FrameGrown(fs[i], cs[i], fs'[i], cs'[i], added);
  }

  lemma {:induction false} GrownResolve(fs: seq<Frame>, cs: seq<seq<nat>>, fs': seq<Frame>, cs': seq<seq<nat>>,
                                        added: set<nat>, i: nat, target: nat)
    requires Grown(fs, cs, fs', cs', added) && i < |fs|
    ensures CanResolve(fs', i, target) <==> CanResolve(fs, i, target)
    decreases i
  {
    assert FrameGrown(fs[i], cs[i], fs'[i], cs'[i], added);
    if i > 0 { GrownResolve(fs, cs, fs', cs', added, i - 1, target); }
  }

  /** A target that is not in the nearest frame lies below it. */
  lemma {:induction false} ResolveBelow(fs: seq<Frame>, cs: seq<seq<nat>>, next: nat, i: nat, target: nat)
    requires StackOk(fs, cs, next) && i < |fs| && CanResolve(fs, i, target)
    requires !(Near(fs, i).first <= target < Near(fs, i).first + Near(fs, i).n)
    ensures i > 0 && CanResolve(fs, i - 1, target) && target < Near(fs, i).first
    decreases i
  {
    if fs[i].defining.Some? {
      ResolveStarts(fs, i - 1, target);
      var j :| 0 <= j <= i - 1 && InFrame(fs[j], target);
    } else {
      ResolveBelow(fs, cs, next, i - 1, target);
    }
  }

  lemma {:induction false} ResolveStarts(fs: seq<Frame>, i: nat, target: nat)
    requires i < |fs| && CanResolve(fs, i, target)
    ensures exists j :: 0 <= j <= i && InFrame(fs[j], target)
    decreases i
  {
    if !InFrame(fs[i], target) { ResolveStarts(fs, i - 1, target); }
  }

  /** Appending one capture to frame `i`. */
  function AddCapture(f: Frame, target: nat, src: Slot): Frame {
    Frame(f.defining, f.captures[target := |f.sources|], f.sources + [src])
  }

  lemma AddCaptureOk(fs: seq<Frame>, cs: seq<seq<nat>>, next: nat, i: nat, target: nat, src: Slot)
    requires StackOk(fs, cs, next) && 0 < i < |fs| && target !in fs[i].captures && target < Near(fs, i).first
    requires IdOf(ViewAt(fs, cs, i - 1, false), src) == Some(target) && (fs[i].defining.None? ==> src.SCapture?)
    ensures var fs', cs' := fs[i := AddCapture(fs[i], target, src)], cs[i := cs[i] + [target]];
            StackOk(fs', cs', next) && Grown(fs, cs, fs', cs', {target})
  {
    hide FrameAt, Near;
    var fs', cs' := fs[i := AddCapture(fs[i], target, src)], cs[i := cs[i] + [target]];
    assert Grown(fs, cs, fs', cs', {target});
    forall k | 0 <= k < |fs'| ensures FrameAt(fs', cs', k) {
      assert FrameAt(fs, cs, k);
      if k == i { AddAt(fs, cs, fs', cs', i, target, src); } else { AddElsewhere(fs, cs, fs', cs', k, target); }
    }
  }

  lemma AddAt(fs: seq<Frame>, cs: seq<seq<nat>>, fs': seq<Frame>, cs': seq<seq<nat>>, i: nat, target: nat, src: Slot)
    requires Grown(fs, cs, fs', cs', {target}) && 0 < i < |fs| && fs[0].defining.Some? && FrameAt(fs, cs, i)
    requires target !in fs[i].captures && target < Near(fs, i).first
    requires IdOf(ViewAt(fs, cs, i - 1, false), src) == Some(target) && (fs[i].defining.None? ==> src.SCapture?)
    requires fs'[i] == AddCapture(fs[i], target, src) && cs'[i] == cs[i] + [target]
    ensures fs'[0].defining.Some? && FrameAt(fs', cs', i)
  {
    GrownNear(fs, cs, fs', cs', {target}, i);
    AddIndexed(fs[i], cs[i], target, src);
    GrownView(fs, cs, fs', cs', {target}, i - 1, false);
    AddSourced(fs[i], cs[i], target, src, ViewAt(fs, cs, i - 1, false), ViewAt(fs', cs', i - 1, false));
    hide Near, Grown, Indexed, Sourced, ViewAt, AddCapture;
    assert forall j :: 0 <= j < |cs'[i]| ==> cs'[i][j] < Near(fs', i).first;
  }

  lemma AddSourced(f: Frame, caps: seq<nat>, target: nat, src: Slot, v0: View, v1: View)
    requires Sourced(f, caps, v0) && Grows(v0, v1) && IdOf(v0, src) == Some(target) && (f.defining.None? ==> src.SCapture?)
    ensures Sourced(AddCapture(f, target, src), caps + [target], v1)
  {
    var f' := AddCapture(f, target, src);
    forall j | 0 <= j < |caps + [target]| ensures IdOf(v1, f'.sources[j]) == Some((caps + [target])[j]) {
      if j < |caps| { assert IdOf(v0, f.sources[j]) == Some(caps[j]); }
    }
  }

  lemma AddElsewhere(fs: seq<Frame>, cs: seq<seq<nat>>, fs': seq<Frame>, cs': seq<seq<nat>>, k: nat, target: nat)
    requires Grown(fs, cs, fs', cs', {target}) && k < |fs| && fs[0].defining.Some? && FrameAt(fs, cs, k)
    requires fs'[k] == fs[k] && cs'[k] == cs[k]
    ensures fs'[0].defining.Some? && FrameAt(fs', cs', k)
  {
    GrownNear(fs, cs, fs', cs', {target}, k);
    if k > 0 {
      GrownView(fs, cs, fs', cs', {target}, k - 1, false);
      forall j | 0 <= j < |cs[k]| ensures IdOf(ViewAt(fs', cs', k - 1, false), fs[k].sources[j]) == Some(cs[k][j]) {
        assert IdOf(ViewAt(fs, cs, k - 1, false), fs[k].sources[j]) == Some(cs[k][j]);
      }
    }
  }

  lemma AddIndexed(f: Frame, caps: seq<nat>, target: nat, src: Slot)
    requires Indexed(f, caps) && target !in f.captures
    ensures Indexed(AddCapture(f, target, src), caps + [target])
  {
    forall j | 0 <= j < |caps| ensures caps[j] != target { assert caps[j] in f.captures; }
  }

  // ---------------------------------------------------------------- entering and leaving frames

  const NoCaptures: map<nat, nat> := map[]

  lemma {:induction false} NearPrefix(fs: seq<Frame>, more: seq<Frame>, i: nat)
    requires i < |fs| && fs[0].defining.Some?
    ensures Near(fs + more, i) == Near(fs, i)
    decreases i
  {
    if fs[i].defining.None? { NearPrefix(fs, more, i - 1); }
  }

  lemma PushOk(fs: seq<Frame>, cs: seq<seq<nat>>, next: nat, d: Option<Defining>)
    requires StackOk(fs, cs, next) && (d.Some? ==> d.value.first == next && d.value.n == 0)
    ensures StackOk(fs + [Frame(d, NoCaptures, [])], cs + [[]], next)
  {
    var fs', cs' := fs + [Frame(d, NoCaptures, [])], cs + [[]];
    forall k | 0 <= k < |fs'| ensures FrameAt(fs', cs', k) {
      if k < |fs| {
        assert FrameAt(fs, cs, k);
        NearPrefix(fs, [Frame(d, NoCaptures, [])], k);
        if k > 0 { NearPrefix(fs, [Frame(d, NoCaptures, [])], k - 1); }
      }
    }
  }

  lemma PopOk(fs: seq<Frame>, cs: seq<seq<nat>>, next: nat, next': nat)
    requires StackOk(fs, cs, next) && |fs| > 1
    requires forall i :: 0 <= i < |fs| - 1 && fs[i].defining.Some? ==> fs[i].defining.value.first + fs[i].defining.value.n <= next'
    ensures StackOk(fs[..|fs| - 1], cs[..|cs| - 1], next')
  {
    var fs', cs' := fs[..|fs| - 1], cs[..|cs| - 1];
    assert fs == fs' + [fs[|fs| - 1]];
    forall k | 0 <= k < |fs'| ensures FrameAt(fs', cs', k) {
      assert FrameAt(fs, cs, k);
      NearPrefix(fs', [fs[|fs| - 1]], k);
      if k > 0 { NearPrefix(fs', [fs[|fs| - 1]], k - 1); }
    }
  }

  /** One more local in the innermost frame. */
  lemma DefineOk(fs: seq<Frame>, cs: seq<seq<nat>>, next: nat)
    requires StackOk(fs, cs, next)
    requires var f := fs[|fs| - 1]; f.defining.Some? && f.defining.value.first + f.defining.value.n == next
    ensures var f := fs[|fs| - 1];
            var f' := f.(defining := Some(f.defining.value.(n := f.defining.value.n + 1)));
            StackOk(fs[|fs| - 1 := f'], cs, next + 1)
  {
    var t := |fs| - 1;
    var fs' := fs[t := fs[t].(defining := Some(fs[t].defining.value.(n := fs[t].defining.value.n + 1)))];
    forall k | 0 <= k < |fs'| ensures FrameAt(fs', cs, k) {
      assert FrameAt(fs, cs, k);
      if k < t { SameNear(fs, fs', k); }
      if k > 0 { SameNear(fs, fs', k - 1); }
      DefinedFrame(fs, fs', cs, k);
    }
    assert forall k :: 0 <= k < t ==> fs'[k] == fs[k];
  }

  lemma SameNear(fs: seq<Frame>, fs': seq<Frame>, k: nat)
    requires |fs'| == |fs| && k < |fs| - 1 && fs[..|fs| - 1] == fs'[..|fs| - 1] && fs[0].defining.Some?
    ensures fs'[0].defining.Some? && Near(fs', k) == Near(fs, k)
  {
    var t := |fs| - 1;
    assert fs' == fs[..t] + [fs'[t]] && fs == fs[..t] + [fs[t]];
    NearPrefix(fs[..t], [fs'[t]], k);
    NearPrefix(fs[..t], [fs[t]], k);
  }

  /** A frame stays well formed when only the number of locals of the innermost one changes. */
  lemma DefinedFrame(fs: seq<Frame>, fs': seq<Frame>, cs: seq<seq<nat>>, k: nat)
    requires |fs'| == |fs| == |cs| && k < |fs| && fs[0].defining.Some? && fs'[0].defining.Some? && FrameAt(fs, cs, k)
    requires fs'[k].captures == fs[k].captures && fs'[k].sources == fs[k].sources
    requires fs'[k].defining.Some? == fs[k].defining.Some? && Near(fs', k).first == Near(fs, k).first
    requires k > 0 ==> Near(fs', k - 1) == Near(fs, k - 1)
    ensures FrameAt(fs', cs, k)
  {
    if k > 0 { assert ViewAt(fs', cs, k - 1, false) == ViewAt(fs, cs, k - 1, false); }
  }

  /** The shape a frame leaves behind denotes, in the frame below, exactly what the frame captured. */
  lemma ShapeOfTop(fs: seq<Frame>, cs: seq<seq<nat>>, next: nat, sup: bool)
    requires StackOk(fs, cs, next) && |fs| > 1
    ensures var t := |fs| - 1;
            var sh := Shape(fs[t].sources, if fs[t].defining.Some? then fs[t].defining.value.n else 0);
            var below := ViewAt(fs[..t], cs[..t], t - 1, sup);
            && ShapeOk(sh, below) && Ids(sh, below) == cs[t]
            && (fs[t].defining.None? ==> CapsOnly(sh) && UseView(below, sh) == ViewAt(fs, cs, t, sup))
            && (fs[t].defining.Some? ==> EnterView(below, sh, fs[t].defining.value.first) == ViewAt(fs, cs, t, sup))
  {
    var t := |fs| - 1;
    assert FrameAt(fs, cs, t);
    assert fs == fs[..t] + [fs[t]];
    NearPrefix(fs[..t], [fs[t]], t - 1);
    var below := ViewAt(fs[..t], cs[..t], t - 1, sup);
    forall j | 0 <= j < |fs[t].sources| ensures IdOf(below, fs[t].sources[j]) == Some(cs[t][j]) {
      assert IdOf(ViewAt(fs, cs, t - 1, false), fs[t].sources[j]) == Some(cs[t][j]);
    }
  }
}
