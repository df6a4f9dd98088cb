/** What a walk over a piece of syntax adds to the capture lists of a stack of closure frames: in
    every frame, the names bound outside that frame, in the order of their first mention. */
module FirstUse {
  import opened Options
  import opened Syntax
  import opened Resolution
  import opened ResolutionLaws
  import opened CaptureStack
  import opened CaptureOrder

  /** `cs1` is `cs` after a walk over the mentions `us`. */
  ghost predicate Walked(fs: seq<Frame>, cs: seq<seq<nat>>, cs1: seq<seq<nat>>, us: seq<Name>, sc: Scope)
    requires fs != [] && fs[0].defining.Some?
  {
    && |cs1| == |cs| == |fs|
    && forall i :: 0 <= i < |fs| ==> cs1[i] == Taken(cs[i], us, sc, Near(fs, i).first)
  }

  ghost function Add(c: seq<nat>, target: nat, first: nat): seq<nat> {
    if target < first && target !in c then c + [target] else c
  }

  /** `cs1` is `cs` after `target` was resolved at level `idx`. */
  ghost predicate Resolved(fs: seq<Frame>, cs: seq<seq<nat>>, cs1: seq<seq<nat>>, target: nat, idx: nat)
    requires idx < |fs| && fs[0].defining.Some?
  {
    |cs1| == |cs| == |fs| && forall i :: 0 <= i <= idx ==> cs1[i] == Add(cs[i], target, Near(fs, i).first)
  }

  // ---------------------------------------------------------------- resolving one id

  lemma {:induction false} NearBound(fs: seq<Frame>, cs: seq<seq<nat>>, next: nat, i: nat, j: nat)
    requires StackOk(fs, cs, next) && i < j < |fs| && fs[j].defining.Some?
    ensures Near(fs, i).first <= fs[j].defining.value.first
    decreases i
  {
    hide FrameAt;
    if fs[i].defining.None? { NearBound(fs, cs, next, i - 1, j); }
  }

  lemma {:induction false} NearMonotone(fs: seq<Frame>, cs: seq<seq<nat>>, next: nat, i: nat, j: nat)
    requires StackOk(fs, cs, next) && i <= j < |fs|
    ensures Near(fs, i).first <= Near(fs, j).first
    decreases j
  {
    hide FrameAt;
    if i < j {
      if fs[j].defining.Some? { NearBound(fs, cs, next, i, j); } else { NearMonotone(fs, cs, next, i, j - 1); }
    }
  }

  /** An id captured at one level is captured at every level below that does not bind it. */
  lemma {:induction false} CapturedUnder(fs: seq<Frame>, cs: seq<seq<nat>>, next: nat, i: nat, idx: nat, target: nat)
    requires StackOk(fs, cs, next) && i <= idx < |fs| && target in cs[idx]
    ensures target in cs[i] || target >= Near(fs, i).first
    decreases idx
  {
    if i < idx {
      assert FrameAt(fs, cs, idx);
      var j :| 0 <= j < |cs[idx]| && cs[idx][j] == target;
      var src := fs[idx].sources[j];
      assert IdOf(ViewAt(fs, cs, idx - 1, false), src) == Some(target);
      NearMonotone(fs, cs, next, i, idx - 1);
      if src.SCapture? { CapturedUnder(fs, cs, next, i, idx - 1, target); }
    }
  }

  lemma ResolvedLocal(fs: seq<Frame>, cs: seq<seq<nat>>, next: nat, target: nat, idx: nat)
    requires StackOk(fs, cs, next) && idx < |fs| && target >= Near(fs, idx).first
    ensures Resolved(fs, cs, cs, target, idx)
  {
    hide FrameAt;
    forall i | 0 <= i <= idx ensures cs[i] == Add(cs[i], target, Near(fs, i).first) { NearMonotone(fs, cs, next, i, idx); }
  }

  lemma ResolvedCaptured(fs: seq<Frame>, cs: seq<seq<nat>>, next: nat, target: nat, idx: nat)
    requires StackOk(fs, cs, next) && idx < |fs| && target in cs[idx]
    ensures Resolved(fs, cs, cs, target, idx)
  {
    hide FrameAt;
    forall i | 0 <= i <= idx ensures cs[i] == Add(cs[i], target, Near(fs, i).first) { CapturedUnder(fs, cs, next, i, idx, target); }
  }

  lemma ResolvedAdded(fs: seq<Frame>, cs: seq<seq<nat>>, cs1: seq<seq<nat>>, cs2: seq<seq<nat>>, target: nat, idx: nat)
    requires 0 < idx < |fs| && fs[0].defining.Some? && Resolved(fs, cs, cs1, target, idx - 1) && cs1[idx] == cs[idx]
    requires target < Near(fs, idx).first && target !in cs[idx] && cs2 == cs1[idx := cs1[idx] + [target]]
    ensures Resolved(fs, cs, cs2, target, idx)
  {}

  lemma OneWalked(fs: seq<Frame>, cs: seq<seq<nat>>, cs1: seq<seq<nat>>, n: Name, sc: Scope)
    requires fs != [] && fs[0].defining.Some? && n in sc.ids && Resolved(fs, cs, cs1, sc.ids[n], |fs| - 1)
    ensures Walked(fs, cs, cs1, [n], sc)
  {
    assert [n][..0] == [];
    forall i | 0 <= i < |fs| ensures cs1[i] == Taken(cs[i], [n], sc, Near(fs, i).first) {
      assert Taken(cs[i], [n][..0], sc, Near(fs, i).first) == cs[i];
    }
  }

  // ---------------------------------------------------------------- longer walks

  lemma NotWalked(fs: seq<Frame>, cs: seq<seq<nat>>, sc: Scope)
    requires |cs| == |fs| > 0 && fs[0].defining.Some?
    ensures Walked(fs, cs, cs, [], sc)
  {}

  lemma WalkedOn(fs: seq<Frame>, cs: seq<seq<nat>>, fs1: seq<Frame>, cs1: seq<seq<nat>>, cs2: seq<seq<nat>>,
                 a: seq<Name>, b: seq<Name>, sc: Scope, added: set<nat>)
    requires fs != [] && fs[0].defining.Some? && Walked(fs, cs, cs1, a, sc) && Grown(fs, cs, fs1, cs1, added)
    requires fs1 != [] && fs1[0].defining.Some? && Walked(fs1, cs1, cs2, b, sc)
    ensures Walked(fs, cs, cs2, a + b, sc)
  {
    hide Grown, Near;
    forall i | 0 <= i < |fs| ensures cs2[i] == Taken(cs[i], a + b, sc, Near(fs, i).first) {
      GrownNear(fs, cs, fs1, cs1, added, i);
      TakenCat(cs[i], a, b, sc, Near(fs, i).first);
    }
  }

  /** Leaving a closure without locals. */
  lemma WalkedUse(fs: seq<Frame>, cs: seq<seq<nat>>, cs1: seq<seq<nat>>, f: Frame, us: seq<Name>, sc: Scope)
    requires |cs| == |fs| > 0 && fs[0].defining.Some? && f.defining.None? && Walked(fs + [f], cs + [[]], cs1, us, sc)
    ensures Walked(fs, cs, cs1[..|fs|], us, sc)
    ensures cs1[|fs|] == Taken([], us, sc, Near(fs, |fs| - 1).first)
  {
    hide Near;
    forall i | 0 <= i < |fs| ensures cs1[..|fs|][i] == Taken(cs[i], us, sc, Near(fs, i).first) {
      NearPrefix(fs, [f], i);
      assert (cs + [[]])[i] == cs[i];
    }
    NearPrefix(fs, [f], |fs| - 1);
    NearNone(fs, f);
  }

  lemma NearNone(fs: seq<Frame>, f: Frame)
    requires fs != [] && fs[0].defining.Some? && f.defining.None?
    ensures Near(fs + [f], |fs|) == Near(fs + [f], |fs| - 1)
  {}

  /** Leaving a frame that binds `bound`. */
  lemma WalkedFrame(fs: seq<Frame>, cs: seq<seq<nat>>, cs1: seq<seq<nat>>, f: Frame, us: seq<Name>, bound: set<Name>,
                    sc: Scope, sc1: Scope, next: nat)
    requires StackOk(fs, cs, next) && f.defining.Some? && f.defining.value.first == next
    requires Walked(fs + [f], cs + [[]], cs1, us, sc1) && Hides(sc, sc1, bound, next)
    ensures Walked(fs, cs, cs1[..|fs|], Without(us, bound), sc)
    ensures cs1[|fs|] == Taken([], Without(us, bound), sc, next)
  {
    hide Near, FrameAt, Hides;
    forall i | 0 <= i < |fs| ensures cs1[..|fs|][i] == Taken(cs[i], Without(us, bound), sc, Near(fs, i).first) {
      NearPrefix(fs, [f], i);
      NearStarts(fs, cs, next, i);
      TakenHidden(cs[i], us, sc, sc1, bound, next, Near(fs, i).first);
      assert (cs + [[]])[i] == cs[i];
    }
    NearSome(fs, f);
    TakenHidden([], us, sc, sc1, bound, next, next);
  }

  lemma {:induction false} NearStarts(fs: seq<Frame>, cs: seq<seq<nat>>, next: nat, i: nat)
    requires StackOk(fs, cs, next) && i < |fs|
    ensures Near(fs, i).first <= next
    decreases i
  {
    hide FrameAt;
    if fs[i].defining.None? { NearStarts(fs, cs, next, i - 1); }
  }

  lemma NearSome(fs: seq<Frame>, f: Frame)
    requires f.defining.Some? && (fs + [f])[0].defining.Some?
    ensures Near(fs + [f], |fs|) == f.defining.value
  {}

  /** A second walk over the same mentions, outside all but the first `m` frames. */
  lemma WalkedAgain(fs: seq<Frame>, cs: seq<seq<nat>>, fs1: seq<Frame>, cs1: seq<seq<nat>>, cs2: seq<seq<nat>>, m: nat,
                    us: seq<Name>, sc: Scope, added: set<nat>)
    requires |cs| == |fs| && 0 < m <= |fs| && fs[0].defining.Some? && Grown(fs, cs, fs1, cs1, added)
    requires Walked(fs, cs, cs1, us, sc) && fs1[0].defining.Some? && Walked(fs1[..m], cs1[..m], cs2, us, sc)
    ensures cs2 + cs1[m..] == cs1
  {
    hide FrameGrown, Near;
    forall i | 0 <= i < m ensures cs2[i] == cs1[i] {
      GrownNear(fs, cs, fs1, cs1, added, i);
      assert fs1 == fs1[..m] + fs1[m..];
      NearPrefix(fs1[..m], fs1[m..], i);
      TakenTwice(cs[i], us, sc, Near(fs, i).first);
    }
  }
}
