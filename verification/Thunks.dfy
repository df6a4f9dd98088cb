/** Memoised thunks: call-by-need with detection of thunks that are already being forced, against
    plain call-by-name evaluation of the same closures. */
module Thunks {
  import opened Options

  /** `Recursive` is the evaluator's own error; every other error is raised by some closure. */
  datatype Error = Recursive | Raised(code: int)

  datatype Result<+V> = Ok(v: V) | Err(e: Error)

  datatype End<+V> = Value(v: V) | Raise(code: int)

  datatype Step<!V(!new)> = Stop(end: End<V>) | Force(t: Thunk<V>)

  /** What a closure does: it forces at most `forces` thunks, each chosen by the values seen so far,
      and ends. An error of a forced thunk is its own error. */
  datatype Closure<!V(!new)> = Closure(forces: nat, next: seq<V> -> Step<V>, finish: seq<V> -> End<V>)

  datatype Inner<!V(!new)> = Computed(v: V) | Errored(e: Error) | Waiting(closure: Closure<V>) | Pending

  function Act<V(!new)>(c: Closure<V>, seen: seq<V>): (r: Step<V>)
    ensures r.Force? ==> |seen| < c.forces
  {
    if |seen| < c.forces then c.next(seen) else Stop(c.finish(seen))
  }

  function Outcome<V>(e: End<V>): Result<V> {
    match e case Value(v) => Ok(v) case Raise(code) => Err(Raised(code))
  }

  // ---------------------------------------------------------------- call by name

  /** Plain evaluation of the rest of `c`: forcing a thunk runs its closure again. `fuel` bounds the
      nesting depth; None means it was too small. */
  ghost function ByName<V(!new)>(c: Closure<V>, seen: seq<V>, fuel: nat): Option<End<V>>
    decreases fuel, c.forces - |seen|
  {
    match Act(c, seen)
    case Stop(end) => Some(end)
    case Force(t) =>
      if fuel == 0 then None
      else
        match ByName(t.code, [], fuel - 1)
        case Some(Value(v)) => ByName(c, seen + [v], fuel)
        case r => r
  }

  ghost predicate Halts<V(!new)>(c: Closure<V>, seen: seq<V>, fuel: nat) {
    ByName(c, seen, fuel).Some?
  }

  ghost predicate Gives<V(!new)>(c: Closure<V>, seen: seq<V>, end: End<V>) {
    exists n: nat :: ByName(c, seen, n) == Some(end)
  }

  /** `r` is what call-by-name evaluation comes to; the evaluator's own error stands for divergence. */
  ghost predicate Answers<V(!new)>(r: Result<V>, c: Closure<V>, seen: seq<V>) {
    match r
    case Ok(v) => Gives(c, seen, Value(v))
    case Err(Raised(code)) => Gives(c, seen, Raise(code))
    case Err(Recursive) => forall n: nat :: !Halts(c, seen, n)
  }

  lemma {:induction false} MoreFuel<V(!new)>(c: Closure<V>, seen: seq<V>, m: nat, n: nat)
    requires m <= n && Halts(c, seen, m)
    ensures ByName(c, seen, n) == ByName(c, seen, m)
    decreases m, c.forces - |seen|
  {
    var a := Act(c, seen);
    if a.Force? {
      assert Halts(a.t.code, [], m - 1);
      MoreFuel(a.t.code, [], m - 1, n - 1);
      var r := ByName(a.t.code, [], m - 1).value;
      if r.Value? {
        assert Halts(c, seen + [r.v], m);
        MoreFuel(c, seen + [r.v], m, n);
      }
    }
  }

  /** A closure halts only if the thunk it forces next halts one level deeper. */
  lemma ForceNeeds<V(!new)>(c: Closure<V>, seen: seq<V>, n: nat)
    requires Act(c, seen).Force? && Halts(c, seen, n)
    ensures n > 0 && Halts(Act(c, seen).t.code, [], n - 1)
  {}

  lemma SameEnd<V(!new)>(c: Closure<V>, seen: seq<V>, m: nat, n: nat)
    requires Halts(c, seen, m) && Halts(c, seen, n)
    ensures ByName(c, seen, m) == ByName(c, seen, n)
  {
    if m <= n { MoreFuel(c, seen, m, n); } else { MoreFuel(c, seen, n, m); }
  }

  /** At most one result answers a closure, so an answer decides what call-by-name comes to. */
  lemma AnswerUnique<V(!new)>(c: Closure<V>, r: Result<V>, s: Result<V>)
    requires Answers(r, c, []) && Answers(s, c, [])
    ensures r == s
  {
    var a := match r case Ok(v) => Some(Value(v)) case Err(Raised(e)) => Some(Raise(e)) case Err(Recursive) => None;
    var b := match s case Ok(v) => Some(Value(v)) case Err(Raised(e)) => Some(Raise(e)) case Err(Recursive) => None;
    if a.Some? {
      var m: nat :| ByName(c, [], m) == Some(a.value);
      assert Halts(c, [], m);
      if b.Some? {
        var n: nat :| ByName(c, [], n) == Some(b.value);
        SameEnd(c, [], m, n);
      }
    } else if b.Some? {
      var n: nat :| ByName(c, [], n) == Some(b.value);
      assert Halts(c, [], n);
    }
  }

  // ---------------------------------------------------------------- the memoised heap

  class Thunk<V(!new)> {
    ghost const code: Closure<V>
    ghost var runs: nat
    var inner: Inner<V>

    constructor (closure: Closure<V>)
      ensures code == closure && inner == Waiting(closure) && runs == 0 && Sound()
    {
      code, inner, runs := closure, Waiting(closure), 0;
    }

    /** A filled cell holds what call-by-name evaluation gives; only a waiting closure has not run. */
    ghost predicate Sound()
      reads this
    {
      && (inner.Waiting? <==> runs == 0) && runs <= 1
      && (inner.Waiting? ==> inner.closure == code)
      && (inner.Computed? ==> Answers(Ok(inner.v), code, []))
      && (inner.Errored? ==> Answers(Err(inner.e), code, []))
    }

    /** Force the thunk. `heap` is everything reachable; a thunk already being forced is an error. */
    method Get(ghost heap: set<Thunk<V>>) returns (r: Result<V>)
      requires this in heap && Heap(heap) && Wanted(heap, code)
      modifies heap
      ensures Heap(heap) && Kept(heap) && Answers(r, code, []) && !inner.Waiting?
      ensures !old(inner.Waiting?) ==> forall t :: t in heap ==> t.inner == old(t.inner) && t.runs == old(t.runs)
      decreases |Fresh(heap)|, 0, 0
    {
      match inner {
        case Computed(v) => return Ok(v);
        case Errored(e) => return Err(e);
        case Pending =>
          SelfWanted(heap, this);
          return Err(Recursive);
        case Waiting(closure) =>
          ghost var waiting := Fresh(heap);
          inner, runs := Pending, runs + 1;
          assert Fresh(heap) == waiting - {this};
          Deepen(heap, this);
          r := Run(closure, heap);
          inner := match r case Ok(v) => Computed(v) case Err(e) => Errored(e);
      }
    }
  }

  method Run<V(!new)>(c: Closure<V>, ghost heap: set<Thunk<V>>) returns (r: Result<V>)
    requires Heap(heap) && Within(c, heap) && Rests(heap, c, [])
    modifies heap
    ensures Heap(heap) && Kept(heap) && Answers(r, c, [])
    decreases |Fresh(heap)|, 1, 0
  {
    r := Resume(c, [], heap);
  }

  /** The rest of a closure's body: its forces in order, the first error ending it. */
  method Resume<V(!new)>(c: Closure<V>, seen: seq<V>, ghost heap: set<Thunk<V>>) returns (r: Result<V>)
    requires Heap(heap) && Within(c, heap) && Rests(heap, c, seen)
    modifies heap
    ensures Heap(heap) && Kept(heap) && Answers(r, c, seen)
    decreases |Fresh(heap)|, 0, c.forces - |seen|
  {
    match Act(c, seen) {
      case Stop(end) =>
        assert ByName(c, seen, 0) == Some(end);
        return Outcome(end);
      case Force(t) =>
        ghost var waiting := Fresh(heap);
        forall u, n: nat | u in heap && u.inner.Pending? && Halts(u.code, [], n)
          ensures n > 0 && Halts(t.code, [], n - 1)
        {
          ForceNeeds(c, seen, n);
        }
        r := t.Get(heap);
        FewerWaiting(Fresh(heap), waiting);
        if r.Ok? {
          var v := r.v;
          RestsOn(heap, c, seen, v);
          r := Resume(c, seen + [v], heap);
          ForceRest(c, seen, v, r);
        } else {
          ForceErr(c, seen, r.e);
        }
    }
  }

  /** Every thunk `c` can ever force is one of `heap`. */
  ghost predicate Within<V(!new)>(c: Closure<V>, heap: set<Thunk<V>>) {
    forall seen :: Act(c, seen).Force? ==> Act(c, seen).t in heap
  }

  /** The thunks whose closures have not run. */
  ghost function Fresh<V(!new)>(heap: set<Thunk<V>>): set<Thunk<V>>
    reads heap
  {
    set t | t in heap && t.inner.Waiting?
  }

  ghost predicate Heap<V(!new)>(heap: set<Thunk<V>>)
    reads heap
  {
    forall t :: t in heap ==> t.Sound() && Within(t.code, heap)
  }

  /** Every thunk being forced halts only by way of the rest of `c`. */
  ghost predicate Rests<V(!new)>(heap: set<Thunk<V>>, c: Closure<V>, seen: seq<V>)
    reads heap
  {
    forall t, n: nat :: t in heap && t.inner.Pending? && Halts(t.code, [], n) ==> Halts(c, seen, n)
  }

  /** Every thunk being forced halts only by way of `c`, one level deeper. */
  ghost predicate Wanted<V(!new)>(heap: set<Thunk<V>>, c: Closure<V>)
    reads heap
  {
    forall t, n: nat :: t in heap && t.inner.Pending? && Halts(t.code, [], n) ==> n > 0 && Halts(c, [], n - 1)
  }

  /** Filled cells are final, and the thunks being forced are the same. */
  twostate predicate Kept<V(!new)>(heap: set<Thunk<V>>)
    reads heap
  {
    forall t :: t in heap ==>
      && (!old(t.inner.Waiting?) ==> t.inner == old(t.inner) && t.runs == old(t.runs))
      && (t.inner.Pending? <==> old(t.inner.Pending?))
      && (t.inner.Waiting? ==> old(t.inner.Waiting?))
  }

  /** When nothing is being forced, every thunk may be. */
  lemma Outermost<V(!new)>(heap: set<Thunk<V>>, t: Thunk<V>)
    requires t in heap && forall u :: u in heap ==> !u.inner.Pending?
    ensures Wanted(heap, t.code)
  {}

  lemma SelfWanted<V(!new)>(heap: set<Thunk<V>>, t: Thunk<V>)
    requires t in heap && t.inner.Pending? && Wanted(heap, t.code)
    ensures forall n: nat :: !Halts(t.code, [], n)
  {
    forall n: nat ensures !Halts(t.code, [], n) { NeverHalts(heap, t, n); }
  }

  lemma {:induction false} NeverHalts<V(!new)>(heap: set<Thunk<V>>, t: Thunk<V>, n: nat)
    requires t in heap && t.inner.Pending? && Wanted(heap, t.code)
    ensures !Halts(t.code, [], n)
  {
    if n > 0 { NeverHalts(heap, t, n - 1); }
  }

  /** Starting on a wanted thunk: it and everything above it rest on its closure. */
  lemma Deepen<V(!new)>(heap: set<Thunk<V>>, t: Thunk<V>)
    requires t in heap
    requires forall u, n: nat :: u in heap && u != t && u.inner.Pending? && Halts(u.code, [], n) ==>
               n > 0 && Halts(t.code, [], n - 1)
    ensures Rests(heap, t.code, [])
  {
    forall u, n: nat | u in heap && u.inner.Pending? && Halts(u.code, [], n) ensures Halts(t.code, [], n) {
      if u != t { MoreFuel(t.code, [], n - 1, n); }
    }
  }

  lemma FewerWaiting<V(!new)>(a: set<Thunk<V>>, b: set<Thunk<V>>)
    requires a <= b
    ensures |a| <= |b|
  {
    assert b == a + (b - a);
  }

  /** Once a force has given `v`, the rest of the closure halts wherever the whole did. */
  lemma ForceOk<V(!new)>(c: Closure<V>, seen: seq<V>, v: V, n: nat)
    requires Act(c, seen).Force? && Answers(Ok(v), Act(c, seen).t.code, []) && Halts(c, seen, n)
    ensures ByName(c, seen, n) == ByName(c, seen + [v], n)
  {
    var t := Act(c, seen).t;
    var m: nat :| ByName(t.code, [], m) == Some(Value(v));
    assert Halts(t.code, [], m) && Halts(t.code, [], n - 1);
    SameEnd(t.code, [], m, n - 1);
  }

  lemma RestsOn<V(!new)>(heap: set<Thunk<V>>, c: Closure<V>, seen: seq<V>, v: V)
    requires Act(c, seen).Force? && Answers(Ok(v), Act(c, seen).t.code, []) && Rests(heap, c, seen)
    ensures Rests(heap, c, seen + [v])
  {
    forall t, n: nat | t in heap && t.inner.Pending? && Halts(t.code, [], n) ensures Halts(c, seen + [v], n) {
      ForceOk(c, seen, v, n);
    }
  }

  lemma ForceRest<V(!new)>(c: Closure<V>, seen: seq<V>, v: V, r: Result<V>)
    requires Act(c, seen).Force? && Answers(Ok(v), Act(c, seen).t.code, []) && Answers(r, c, seen + [v])
    ensures Answers(r, c, seen)
  {
    if r == Err(Recursive) {
      forall n: nat ensures !Halts(c, seen, n) {
        if Halts(c, seen, n) {
          ForceOk(c, seen, v, n);
          assert Halts(c, seen + [v], n);
        }
      }
    } else {
      var t, end := Act(c, seen).t, match r case Ok(w) => Value(w) case Err(e) => Raise(e.code);
      var m: nat :| ByName(t.code, [], m) == Some(Value(v));
      var k: nat :| ByName(c, seen + [v], k) == Some(end);
      var n := if k < m + 1 then m + 1 else k;
      MoreFuel(t.code, [], m, n - 1);
      MoreFuel(c, seen + [v], k, n);
      assert ByName(c, seen, n) == Some(end);
    }
  }

  lemma ForceErr<V(!new)>(c: Closure<V>, seen: seq<V>, e: Error)
    requires Act(c, seen).Force? && Answers(Err(e), Act(c, seen).t.code, [])
    ensures Answers(Err(e), c, seen)
  {
    var t := Act(c, seen).t;
    if e.Raised? {
      var m: nat :| ByName(t.code, [], m) == Some(Raise(e.code));
      assert ByName(c, seen, m + 1) == Some(Raise(e.code));
    } else {
      forall n: nat ensures !Halts(c, seen, n) {
        if Halts(c, seen, n) { ForceNeeds(c, seen, n); }
      }
    }
  }

  // ---------------------------------------------------------------- thunks that need themselves

  /** Plain evaluation of `c` gets as far as having seen these values. */
  ghost predicate Reached<V(!new)>(c: Closure<V>, seen: seq<V>) {
    forall i :: 0 <= i < |seen| ==>
      var a := Act(c, seen[..i]); a.Force? && Answers(Ok(seen[i]), a.t.code, [])
  }

  ghost predicate Needs<V(!new)>(t: Thunk<V>, u: Thunk<V>) {
    exists seen :: Reached(t.code, seen) && Act(t.code, seen) == Force(u)
  }

  lemma {:induction false} ReachedHalts<V(!new)>(c: Closure<V>, seen: seq<V>, n: nat)
    requires Reached(c, seen) && Halts(c, [], n)
    ensures Halts(c, seen, n)
  {
    if seen != [] {
      var k := |seen| - 1;
      var before := seen[..k];
      forall i | 0 <= i < |before| ensures before[..i] == seen[..i] {}
      ReachedHalts(c, before, n);
      ForceOk(c, before, seen[k], n);
      assert before + [seen[k]] == seen;
    }
  }

  lemma {:induction false} PathHalts<V(!new)>(path: seq<Thunk<V>>, n: nat)
    requires path != [] && forall i :: 0 <= i < |path| - 1 ==> Needs(path[i], path[i + 1])
    requires Halts(path[0].code, [], n)
    ensures n >= |path| - 1 && Halts(path[|path| - 1].code, [], n - (|path| - 1))
  {
    if |path| > 1 {
      assert Needs(path[0], path[1]);
      var seen :| Reached(path[0].code, seen) && Act(path[0].code, seen) == Force(path[1]);
      ReachedHalts(path[0].code, seen, n);
      ForceNeeds(path[0].code, seen, n);
      PathHalts(path[1..], n - 1);
    }
  }

  /** `t` needs itself by way of `path`. */
  ghost predicate Loop<V(!new)>(t: Thunk<V>, path: seq<Thunk<V>>) {
    && |path| >= 2 && path[0] == t && path[|path| - 1] == t
    && forall i :: 0 <= i < |path| - 1 ==> Needs(path[i], path[i + 1])
  }

  /** A thunk that needs itself, through any number of others, has no call-by-name value. */
  lemma {:induction false} Cycle<V(!new)>(t: Thunk<V>, path: seq<Thunk<V>>, n: nat)
    requires Loop(t, path)
    ensures !Halts(t.code, [], n)
  {
    if Halts(t.code, [], n) {
      PathHalts(path, n);
      Cycle(t, path, n - (|path| - 1));
    }
  }

  /** A call made while nothing is being forced: nothing is left being forced, and the result is the
      error for divergence exactly when plain evaluation never ends. */
  method Demand<V(!new)>(t: Thunk<V>, ghost heap: set<Thunk<V>>) returns (r: Result<V>)
    requires t in heap && Heap(heap) && forall u :: u in heap ==> !u.inner.Pending?
    modifies heap
    ensures Heap(heap) && Kept(heap) && forall u :: u in heap ==> !u.inner.Pending?
    ensures Answers(r, t.code, [])
    ensures r == Err(Recursive) <==> forall n: nat :: !Halts(t.code, [], n)
    ensures forall path: seq<Thunk<V>> :: Loop(t, path) ==> r == Err(Recursive)
  {
    Outermost(heap, t);
    r := t.Get(heap);
    if r != Err(Recursive) {
      var end := match r case Ok(v) => Value(v) case Err(e) => Raise(e.code);
      ghost var m: nat :| ByName(t.code, [], m) == Some(end);
      assert Halts(t.code, [], m);
    }
    forall path: seq<Thunk<V>> | Loop(t, path) ensures r == Err(Recursive) {
      forall n: nat ensures !Halts(t.code, [], n) { Cycle(t, path, n); }
    }
  }
}
