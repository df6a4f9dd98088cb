/** Sets as arrays that increase strictly by key: binary search, and three merges that walk both
    arrays once. Keys of different types do not compare, which is an error. */
module Sets {
  import opened Options

  datatype Key = Key(kind: nat, rank: int)

  datatype Elem = Elem(key: Key, payload: int)

  datatype Ordering = Less | Equal | Greater

  function TryCmp(a: Key, b: Key): Option<Ordering> {
    if a.kind != b.kind then None
    else Some(if a.rank < b.rank then Less else if a.rank == b.rank then Equal else Greater)
  }

  predicate Before(a: Key, b: Key) { a.kind == b.kind && a.rank < b.rank }

  ghost predicate Increasing(xs: seq<Elem>) {
    forall i, j :: 0 <= i < j < |xs| ==> Before(xs[i].key, xs[j].key)
  }

  ghost predicate HasKey(xs: seq<Elem>, k: Key) {
    exists i :: 0 <= i < |xs| && xs[i].key == k
  }

  /** Keys of the two arrays compare with each other, if there are any to compare. */
  ghost predicate Comparable(a: seq<Elem>, b: seq<Elem>) {
    a == [] || b == [] || a[0].key.kind == b[0].key.kind
  }

  /** The walk has passed `i` elements of `a` and `j` of `b`: everything passed lies before everything
      to come. */
  ghost predicate Passed(a: seq<Elem>, b: seq<Elem>, i: nat, j: nat) {
    && i <= |a| && j <= |b|
    && (forall p, q :: 0 <= p < i && j <= q < |b| ==> Before(a[p].key, b[q].key))
    && (forall p, q :: i <= p < |a| && 0 <= q < j ==> Before(b[q].key, a[p].key))
  }

  /** Elements that can be appended to a part of the result. */
  ghost predicate Ahead(out: seq<Elem>, a: seq<Elem>, b: seq<Elem>, i: nat, j: nat) {
    && (forall m, p :: 0 <= m < |out| && i <= p < |a| ==> Before(out[m].key, a[p].key))
    && (forall m, q :: 0 <= m < |out| && j <= q < |b| ==> Before(out[m].key, b[q].key))
  }

  lemma SameType(a: seq<Elem>, b: seq<Elem>, i: nat, j: nat)
    requires Increasing(a) && Increasing(b) && i < |a| && j < |b|
    ensures a[i].key.kind == b[j].key.kind <==> Comparable(a, b)
  {
    assert i == 0 || Before(a[0].key, a[i].key);
    assert j == 0 || Before(b[0].key, b[j].key);
  }

  lemma Append(out: seq<Elem>, x: Elem)
    requires Increasing(out) && forall m :: 0 <= m < |out| ==> Before(out[m].key, x.key)
    ensures Increasing(out + [x])
  {}

  // ---------------------------------------------------------------- membership

  /** Binary search. */
  method SetMember(x: Key, arr: seq<Elem>) returns (r: Option<bool>)
    requires Increasing(arr)
    ensures r.None? <==> arr != [] && arr[0].key.kind != x.kind
    ensures r.Some? ==> (r.value <==> HasKey(arr, x))
  {
    var low, high := 0, |arr|;
    while low < high
      invariant 0 <= low <= high <= |arr|
      invariant forall i :: 0 <= i < low ==> Before(arr[i].key, x)
      invariant forall i :: high <= i < |arr| ==> Before(x, arr[i].key)
      decreases high - low
    {
      var middle := (high + low) / 2;
      SameType(arr, [Elem(x, 0)], middle, 0);
      match TryCmp(arr[middle].key, x) {
        case None => return None;
        case Some(Less) => low := middle + 1;
        case Some(Equal) => return Some(true);
        case Some(Greater) => high := middle;
      }
    }
    r := Some(false);
    if arr != [] {
      assert Before(arr[0].key, x) || Before(x, arr[0].key);
    }
  }

  // ---------------------------------------------------------------- one step of a merge

  datatype Op = Inter | Diff | Union

  /** Whether `x` belongs in the result, given what has been passed of the two arrays. */
  ghost predicate Belongs(op: Op, a: seq<Elem>, b: seq<Elem>, i: nat, j: nat, x: Elem)
    requires i <= |a| && j <= |b|
  {
    match op
    case Inter => x in a[..i] && HasKey(b, x.key)
    case Diff => x in a[..i] && !HasKey(b, x.key)
    case Union => x in a[..i] || (x in b[..j] && !HasKey(a, x.key))
  }

  ghost predicate Exactly(op: Op, a: seq<Elem>, b: seq<Elem>, i: nat, j: nat, out: seq<Elem>)
    requires i <= |a| && j <= |b|
  {
    forall x :: x in out <==> Belongs(op, a, b, i, j, x)
  }

  ghost predicate At(op: Op, a: seq<Elem>, b: seq<Elem>, i: nat, j: nat, out: seq<Elem>) {
    Passed(a, b, i, j) && Ahead(out, a, b, i, j) && Increasing(out) && Exactly(op, a, b, i, j, out)
  }

  lemma NothingYet(op: Op, a: seq<Elem>, b: seq<Elem>)
    ensures At(op, a, b, 0, 0, [])
  {}

  lemma Prefix(xs: seq<Elem>, i: nat, x: Elem)
    requires i < |xs|
    ensures x in xs[..i + 1] <==> x in xs[..i] || x == xs[i]
  {
    assert xs[..i + 1] == xs[..i] + [xs[i]];
  }

  /** An element that lies between what has been passed of the other array and what is to come of it has
      no counterpart there. */
  lemma NoKey(a: seq<Elem>, b: seq<Elem>, i: nat, j: nat)
    requires Passed(a, b, i, j) && i < |a| && Increasing(b) && (j == |b| || Before(a[i].key, b[j].key))
    ensures !HasKey(b, a[i].key)
  {
    forall q | 0 <= q < |b| ensures b[q].key != a[i].key {
      if q < j { assert Before(b[q].key, a[i].key); } else if q > j { assert Before(b[j].key, b[q].key); }
    }
  }

  lemma PassA(a: seq<Elem>, b: seq<Elem>, i: nat, j: nat)
    requires Passed(a, b, i, j) && Increasing(a) && Increasing(b) && i < |a| && (j == |b| || Before(a[i].key, b[j].key))
    ensures Passed(a, b, i + 1, j)
  {
    forall q | j <= q < |b| ensures Before(a[i].key, b[q].key) {
      if q > j { assert Before(b[j].key, b[q].key); }
    }
  }

  lemma PassB(a: seq<Elem>, b: seq<Elem>, i: nat, j: nat)
    requires Passed(a, b, i, j) && Increasing(a) && Increasing(b) && j < |b| && (i == |a| || Before(b[j].key, a[i].key))
    ensures Passed(a, b, i, j + 1)
  {
    forall p | i <= p < |a| ensures Before(b[j].key, a[p].key) {
      if p > i { assert Before(a[i].key, a[p].key); }
    }
  }

  lemma PassBoth(a: seq<Elem>, b: seq<Elem>, i: nat, j: nat)
    requires Passed(a, b, i, j) && Increasing(a) && Increasing(b) && i < |a| && j < |b| && a[i].key == b[j].key
    ensures Passed(a, b, i + 1, j + 1)
  {
    forall q | j < q < |b| ensures Before(a[i].key, b[q].key) { assert Before(b[j].key, b[q].key); }
    forall p | i < p < |a| ensures Before(b[j].key, a[p].key) { assert Before(a[i].key, a[p].key); }
  }

  /** The next element of the result, if any, lies before everything to come. */
  lemma Emit(out: seq<Elem>, x: Elem, a: seq<Elem>, b: seq<Elem>, i: nat, j: nat, i': nat, j': nat)
    requires Increasing(out) && Ahead(out, a, b, i, j) && i <= i' && j <= j'
    requires (i < |a| && x == a[i]) || (j < |b| && x == b[j])
    requires forall p :: i' <= p < |a| ==> Before(x.key, a[p].key)
    requires forall q :: j' <= q < |b| ==> Before(x.key, b[q].key)
    ensures Increasing(out + [x]) && Ahead(out + [x], a, b, i', j')
  {
    Append(out, x);
  }

  lemma StepA(op: Op, a: seq<Elem>, b: seq<Elem>, i: nat, j: nat, out: seq<Elem>)
    requires At(op, a, b, i, j, out) && Increasing(a) && Increasing(b) && i < |a| && (j == |b| || Before(a[i].key, b[j].key))
    ensures At(op, a, b, i + 1, j, if op == Inter then out else out + [a[i]])
  {
    PassA(a, b, i, j);
    NoKey(a, b, i, j);
    if op != Inter { Emit(out, a[i], a, b, i, j, i + 1, j); }
    hide HasKey, Passed, Ahead, Increasing;
    var out' := if op == Inter then out else out + [a[i]];
    forall x ensures x in out' <==> Belongs(op, a, b, i + 1, j, x) { Prefix(a, i, x); }
  }

  lemma StepB(op: Op, a: seq<Elem>, b: seq<Elem>, i: nat, j: nat, out: seq<Elem>)
    requires At(op, a, b, i, j, out) && Increasing(a) && Increasing(b) && j < |b| && (i == |a| || Before(b[j].key, a[i].key))
    ensures At(op, a, b, i, j + 1, if op == Union then out + [b[j]] else out)
  {
    PassB(a, b, i, j);
    NoKeyB(a, b, i, j);
    if op == Union { Emit(out, b[j], a, b, i, j, i, j + 1); }
    hide HasKey, Passed, Ahead, Increasing;
    var out' := if op == Union then out + [b[j]] else out;
    forall x ensures x in out' <==> Belongs(op, a, b, i, j + 1, x) { Prefix(b, j, x); }
  }

  lemma NoKeyB(a: seq<Elem>, b: seq<Elem>, i: nat, j: nat)
    requires Passed(a, b, i, j) && j < |b| && Increasing(a) && (i == |a| || Before(b[j].key, a[i].key))
    ensures !HasKey(a, b[j].key)
  {
    forall p | 0 <= p < |a| ensures a[p].key != b[j].key {
      if p < i { assert Before(a[p].key, b[j].key); } else if p > i { assert Before(a[i].key, a[p].key); }
    }
  }

  lemma StepBoth(op: Op, a: seq<Elem>, b: seq<Elem>, i: nat, j: nat, out: seq<Elem>)
    requires At(op, a, b, i, j, out) && Increasing(a) && Increasing(b) && i < |a| && j < |b| && a[i].key == b[j].key
    ensures At(op, a, b, i + 1, j + 1, if op == Diff then out else out + [a[i]])
  {
    PassBoth(a, b, i, j);
    assert HasKey(b, a[i].key) && HasKey(a, b[j].key);
    if op != Diff { Emit(out, a[i], a, b, i, j, i + 1, j + 1); }
    hide HasKey, Passed, Ahead, Increasing;
    var out' := if op == Diff then out else out + [a[i]];
    forall x ensures x in out' <==> Belongs(op, a, b, i + 1, j + 1, x) {
      Prefix(a, i, x);
      Prefix(b, j, x);
    }
  }

  /** The whole result, when both arrays have been passed, or all of `a` for a result taken from it. */
  lemma WholeResult(op: Op, a: seq<Elem>, b: seq<Elem>, i: nat, j: nat, out: seq<Elem>)
    requires At(op, a, b, i, j, out) && (i == |a| || (op == Inter && j == |b|)) && (op == Union ==> j == |b|)
    ensures Increasing(out) && forall x :: x in out <==> Belongs(op, a, b, |a|, |b|, x)
  {
    assert a[..|a|] == a && b[..|b|] == b;
    if op == Inter {
      forall x ensures x in out <==> x in a && HasKey(b, x.key) {
        if x in a && HasKey(b, x.key) {
          var p :| 0 <= p < |a| && a[p] == x;
          var q :| 0 <= q < |b| && b[q].key == x.key;
          assert p < i;
          assert x == a[..i][p];
        }
      }
    }
  }

  // ---------------------------------------------------------------- merges

  /** The elements of `a` whose key occurs in `b`. */
  method SetInter(a: seq<Elem>, b: seq<Elem>) returns (r: Option<seq<Elem>>)
    requires Increasing(a) && Increasing(b)
    ensures r.Some? <==> Comparable(a, b)
    ensures r.Some? ==> Increasing(r.value) && forall x :: x in r.value <==> x in a && HasKey(b, x.key)
  {
    hide At, Increasing, HasKey;
    var i, j, out := 0, 0, [];
    NothingYet(Inter, a, b);
    while i < |a| && j < |b|
      invariant i <= |a| && j <= |b| && At(Inter, a, b, i, j, out) && (i + j > 0 ==> Comparable(a, b))
      decreases |a| - i + |b| - j
    {
      SameType(a, b, i, j);
      match TryCmp(a[i].key, b[j].key) {
        case None => return None;
        case Some(Less) =>
          StepA(Inter, a, b, i, j, out);
          i := i + 1;
        case Some(Greater) =>
          StepB(Inter, a, b, i, j, out);
          j := j + 1;
        case Some(Equal) =>
          StepBoth(Inter, a, b, i, j, out);
          out, i, j := out + [a[i]], i + 1, j + 1;
      }
    }
    WholeResult(Inter, a, b, i, j, out);
    assert a[..|a|] == a;
    r := Some(out);
  }

  /** The elements of `a` whose key does not occur in `b`. */
  method SetDiff(a: seq<Elem>, b: seq<Elem>) returns (r: Option<seq<Elem>>)
    requires Increasing(a) && Increasing(b)
    ensures r.Some? <==> Comparable(a, b)
    ensures r.Some? ==> Increasing(r.value) && forall x :: x in r.value <==> x in a && !HasKey(b, x.key)
  {
    hide At, Increasing, HasKey;
    var i, j, out := 0, 0, [];
    NothingYet(Diff, a, b);
    while i < |a| && j < |b|
      invariant i <= |a| && j <= |b| && At(Diff, a, b, i, j, out) && (i + j > 0 ==> Comparable(a, b))
      decreases |a| - i + |b| - j
    {
      SameType(a, b, i, j);
      match TryCmp(a[i].key, b[j].key) {
        case None => return None;
        case Some(Less) =>
          StepA(Diff, a, b, i, j, out);
          out, i := out + [a[i]], i + 1;
        case Some(Greater) =>
          StepB(Diff, a, b, i, j, out);
          j := j + 1;
        case Some(Equal) =>
          StepBoth(Diff, a, b, i, j, out);
          i, j := i + 1, j + 1;
      }
    }
    while i < |a|
      invariant i <= |a| && j <= |b| && At(Diff, a, b, i, j, out) && (i < |a| ==> j == |b|) && Comparable(a, b)
    {
      StepA(Diff, a, b, i, j, out);
      out, i := out + [a[i]], i + 1;
    }
    WholeResult(Diff, a, b, i, j, out);
    assert a[..|a|] == a;
    r := Some(out);
  }

  /** The elements of `a`, and those of `b` whose key does not occur in `a`. */
  method SetUnion(a: seq<Elem>, b: seq<Elem>) returns (r: Option<seq<Elem>>)
    requires Increasing(a) && Increasing(b)
    ensures r.Some? <==> Comparable(a, b)
    ensures r.Some? ==> Increasing(r.value) && forall x :: x in r.value <==> x in a || (x in b && !HasKey(a, x.key))
  {
    hide At, Increasing, HasKey;
    var i, j, out := 0, 0, [];
    NothingYet(Union, a, b);
    while i < |a| && j < |b|
      invariant i <= |a| && j <= |b| && At(Union, a, b, i, j, out) && (i + j > 0 ==> Comparable(a, b))
      decreases |a| - i + |b| - j
    {
      SameType(a, b, i, j);
      match TryCmp(a[i].key, b[j].key) {
        case None => return None;
        case Some(Less) =>
          StepA(Union, a, b, i, j, out);
          out, i := out + [a[i]], i + 1;
        case Some(Greater) =>
          StepB(Union, a, b, i, j, out);
          out, j := out + [b[j]], j + 1;
        case Some(Equal) =>
          StepBoth(Union, a, b, i, j, out);
          out, i, j := out + [a[i]], i + 1, j + 1;
      }
    }
    while i < |a|
      invariant i <= |a| && j <= |b| && At(Union, a, b, i, j, out) && (i < |a| ==> j == |b|) && Comparable(a, b)
    {
      StepA(Union, a, b, i, j, out);
      out, i := out + [a[i]], i + 1;
    }
    while j < |b|
      invariant i == |a| && j <= |b| && At(Union, a, b, i, j, out) && Comparable(a, b)
    {
      StepB(Union, a, b, i, j, out);
      out, j := out + [b[j]], j + 1;
    }
    WholeResult(Union, a, b, i, j, out);
    assert a[..|a|] == a && b[..|b|] == b;
    r := Some(out);
  }

  // ---------------------------------------------------------------- a set is determined by its elements

  /** Two strictly increasing arrays with the same elements are equal, so each merge has one result. */
  lemma {:induction false} OneArray(xs: seq<Elem>, ys: seq<Elem>)
    requires Increasing(xs) && Increasing(ys) && forall x :: x in xs <==> x in ys
    ensures xs == ys
    decreases |xs|
  {
    FirstIn(ys);
    if xs != [] {
      assert xs[0] in xs && xs[0] in ys;
      assert ys[0] in ys && ys[0] in xs;
      SameFirst(xs, ys);
      forall x ensures x in xs[1..] <==> x in ys[1..] { Rest(xs, x); Rest(ys, x); }
      OneArray(xs[1..], ys[1..]);
      assert xs == [xs[0]] + xs[1..] && ys == [ys[0]] + ys[1..];
    }
  }

  lemma FirstIn(xs: seq<Elem>)
    ensures xs == [] || xs[0] in xs
  {}

  lemma SameFirst(xs: seq<Elem>, ys: seq<Elem>)
    requires Increasing(xs) && Increasing(ys) && xs != [] && ys != [] && xs[0] in ys && ys[0] in xs
    ensures xs[0] == ys[0]
  {
    var i :| 0 <= i < |ys| && ys[i] == xs[0];
    var j :| 0 <= j < |xs| && xs[j] == ys[0];
    assert i == 0 || Before(ys[0].key, xs[0].key);
    assert j == 0 || Before(xs[0].key, ys[0].key);
  }

  lemma Rest(xs: seq<Elem>, x: Elem)
    requires Increasing(xs) && xs != []
    ensures x in xs[1..] <==> x in xs && x != xs[0]
  {
    assert xs == [xs[0]] + xs[1..];
    if x in xs[1..] {
      var i :| 0 <= i < |xs[1..]| && xs[1..][i] == x;
      assert Before(xs[0].key, xs[i + 1].key);
    }
  }

  /** Difference and intersection split an array, and union puts it together again. */
  lemma SplitAndJoin(a: seq<Elem>, b: seq<Elem>, d: seq<Elem>, i: seq<Elem>, u: seq<Elem>)
    requires Increasing(a) && Increasing(u)
    requires forall x :: x in d <==> x in a && !HasKey(b, x.key)
    requires forall x :: x in i <==> x in a && HasKey(b, x.key)
    requires forall x :: x in u <==> x in d || (x in i && !HasKey(d, x.key))
    ensures u == a
  {
    forall x ensures x in u <==> x in a {
      assert forall p :: 0 <= p < |d| ==> d[p] in d && !HasKey(b, d[p].key);
    }
    OneArray(u, a);
  }
}
