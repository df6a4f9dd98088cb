/** Reusing lowered imports: a bounded FIFO cache shared by evaluator states, standing in for parsing
    and analysing a file again. */
module PreparedImports {
  import opened Options

  type Path = string

  /** Root bindings of a file, with the slots they are analysed under. */
  type Externals = seq<(string, nat)>

  datatype ImportError = NotLoaded | BadUtf8 | SyntaxError | AnalysisError

  datatype Result<+T> = Ok(v: T) | Err(e: ImportError)

  /** Parser and analyzer; neither keeps state between files. */
  datatype Front<!Ast, !Lir> = Front(
    parse: (Path, string) -> Option<Ast>,
    analyze: (Ast, Externals) -> Option<Lir>)
  {
    /** Lowered code of a file with contents `code`, made from scratch. */
    ghost function Lower(path: Path, code: string, externals: Externals): Result<Lir> {
      var ast := parse(path, code);
      if ast.None? then Err(SyntaxError)
      else
        var lir := analyze(ast.value, externals);
        if lir.None? then Err(AnalysisError) else Ok(lir.value)
    }
  }

  datatype Entry<+Lir> = Entry(code: string, externals: Externals, lir: Lir)

  ghost predicate Distinct<T>(xs: seq<T>) {
    forall i, j :: 0 <= i < j < |xs| ==> xs[i] != xs[j]
  }

  /** Source bytes of the files `ps`, an entry apiece. */
  ghost function Total<Lir>(es: map<Path, Entry<Lir>>, ps: seq<Path>): nat
    requires forall p :: p in ps ==> p in es
  {
    if ps == [] then 0 else |es[ps[0]].code| + Total(es, ps[1..])
  }

  lemma {:induction false} TotalAppend<Lir>(es: map<Path, Entry<Lir>>, ps: seq<Path>, p: Path)
    requires forall x :: x in ps + [p] ==> x in es
    ensures Total(es, ps + [p]) == Total(es, ps) + |es[p].code|
  {
    if ps != [] {
      assert (ps + [p])[1..] == ps[1..] + [p];
      TotalAppend(es, ps[1..], p);
    }
  }

  /** Entries of other files do not count. */
  lemma {:induction false} TotalFrame<Lir>(es: map<Path, Entry<Lir>>, fs: map<Path, Entry<Lir>>, ps: seq<Path>)
    requires forall p :: p in ps ==> p in es && p in fs && fs[p] == es[p]
    ensures Total(es, ps) == Total(fs, ps)
  {
    if ps != [] { TotalFrame(es, fs, ps[1..]); }
  }

  lemma {:induction false} TotalReplace<Lir>(es: map<Path, Entry<Lir>>, ps: seq<Path>, p: Path, e: Entry<Lir>)
    requires Distinct(ps) && p in ps && forall x :: x in ps ==> x in es
    ensures Total(es[p := e], ps) == Total(es, ps) - |es[p].code| + |e.code|
    ensures Total(es, ps) >= |es[p].code|
  {
    if ps[0] == p {
      assert p !in ps[1..];
      TotalFrame(es, es[p := e], ps[1..]);
    } else {
      assert p in ps[1..];
      TotalReplace(es, ps[1..], p, e);
    }
  }

  /** A longer queue holds at least as much. */
  lemma {:induction false} TotalTail<Lir>(es: map<Path, Entry<Lir>>, ps: seq<Path>, n: nat)
    requires n <= |ps| && forall p :: p in ps ==> p in es
    ensures Total(es, ps[n..]) <= Total(es, ps)
  {
    if n > 0 {
      TotalTail(es, ps[1..], n - 1);
      assert ps[1..][n - 1..] == ps[n..];
    }
  }

  /** The queue lists each entry once, and `bytes` is their exact size. */
  ghost predicate Queued<Lir>(es: map<Path, Entry<Lir>>, ps: seq<Path>, bytes: nat) {
    Distinct(ps) && (forall p :: p in ps <==> p in es) && bytes == Total(es, ps)
  }

  lemma {:induction false} Cardinal<T>(xs: seq<T>, s: set<T>)
    requires Distinct(xs) && forall x :: x in xs <==> x in s
    ensures |s| == |xs|
  {
    if xs == [] {
      assert s == {};
    } else {
      forall x | x in s - {xs[0]} ensures x in xs[1..] {
        var i :| 0 <= i < |xs| && xs[i] == x;
        assert xs[1..][i - 1] == x;
      }
      Cardinal(xs[1..], s - {xs[0]});
    }
  }

  lemma QueueSize<Lir>(es: map<Path, Entry<Lir>>, ps: seq<Path>, bytes: nat)
    requires Queued(es, ps, bytes)
    ensures |es| == |ps|
  {
    Cardinal(ps, es.Keys);
  }

  // ---------------------------------------------------------------- eviction

  datatype Bounds = Bounds(entries: nat, bytes: nat)

  ghost predicate Fits<Lir>(es: map<Path, Entry<Lir>>, ps: seq<Path>, b: Bounds)
    requires forall p :: p in ps ==> p in es
  {
    |ps| <= b.entries && Total(es, ps) <= b.bytes
  }

  /** What is left of the queue `ps` when files leave from the front until the rest fits. */
  ghost function Evict<Lir>(es: map<Path, Entry<Lir>>, ps: seq<Path>, b: Bounds): (r: seq<Path>)
    requires forall p :: p in ps ==> p in es
    ensures |r| <= |ps| && r == ps[|ps| - |r|..] && Fits(es, r, b)
  {
    if Fits(es, ps, b) then ps else Evict(es, ps[1..], b)
  }

  /** Eviction is minimal: file `i` stays exactly when it fits together with everything queued behind it. */
  lemma {:induction false} Retained<Lir>(es: map<Path, Entry<Lir>>, ps: seq<Path>, b: Bounds, i: nat)
    requires Distinct(ps) && i < |ps| && forall p :: p in ps ==> p in es
    ensures ps[i] in Evict(es, ps, b) <==> Fits(es, ps[i..], b)
  {
    if Fits(es, ps, b) {
      TotalTail(es, ps, i);
    } else if i == 0 {
      assert ps[0] !in ps[1..];
    } else {
      Retained(es, ps[1..], b, i - 1);
      assert ps[1..][i - 1..] == ps[i..];
    }
  }

  /** A file new to the cache is last in the queue, so it stays whenever it fits on its own. */
  lemma NewStays<Lir>(es: map<Path, Entry<Lir>>, ps: seq<Path>, b: Bounds, p: Path)
    requires Distinct(ps + [p]) && (forall x :: x in ps + [p] ==> x in es) && b.entries > 0 && |es[p].code| <= b.bytes
    ensures p in Evict(es, ps + [p], b)
  {
    assert (ps + [p])[|ps|..] == [p];
    Retained(es, ps + [p], b, |ps|);
  }

  lemma EvictOne<Lir>(es: map<Path, Entry<Lir>>, ps: seq<Path>, bytes: nat)
    requires Queued(es, ps, bytes) && ps != []
    ensures |es[ps[0]].code| <= bytes && Queued(es - {ps[0]}, ps[1..], bytes - |es[ps[0]].code|)
  {
    var es' := es - {ps[0]};
    forall p | p in es' ensures p in ps[1..] {
      var i :| 0 <= i < |ps| && ps[i] == p;
      assert ps[1..][i - 1] == p;
    }
    TotalFrame(es, es', ps[1..]);
  }

  lemma QueueAdd<Lir>(es: map<Path, Entry<Lir>>, ps: seq<Path>, bytes: nat, p: Path, e: Entry<Lir>)
    requires Queued(es, ps, bytes) && p !in es
    ensures Queued(es[p := e], ps + [p], bytes + |e.code|)
  {
    TotalFrame(es, es[p := e], ps);
    TotalAppend(es[p := e], ps, p);
  }

  lemma QueueReplace<Lir>(es: map<Path, Entry<Lir>>, ps: seq<Path>, bytes: nat, p: Path, e: Entry<Lir>)
    requires Queued(es, ps, bytes) && p in es
    ensures |es[p].code| <= bytes && Queued(es[p := e], ps, bytes - |es[p].code| + |e.code|)
  {
    TotalReplace(es, ps, p, e);
  }

  /** Replacing a file by a longer version can evict the new version itself. */
  lemma ReplacementEvictsItself<Lir>(lir: Lir)
    ensures var es := map["a" := Entry("12", [], lir), "b" := Entry("123", [], lir)];
            Fits(es["a" := Entry("1", [], lir)], ["a", "b"], Bounds(2, 4)) && Evict(es, ["a", "b"], Bounds(2, 4)) == ["b"]
  {
    var es := map["a" := Entry("12", [], lir), "b" := Entry("123", [], lir)];
    var shorter := es["a" := Entry("1", [], lir)];
    assert ["a", "b"][1..] == ["b"] && ["b"][1..] == [];
    assert Total(es, ["b"]) == 3 && Total(shorter, ["b"]) == 3;
    assert Total(es, ["a", "b"]) == 5 && Total(shorter, ["a", "b"]) == 4;
  }

  class Cache<Lir> {
    var entries: map<Path, Entry<Lir>>
    var order: seq<Path>
    var sourceBytes: nat
    const maxEntries: nat
    const maxSourceBytes: nat

    constructor (maxEntries: nat := 4096, maxSourceBytes: nat := 32 * 1024 * 1024)
      ensures Valid() && entries == map[] && order == []
      ensures this.maxEntries == maxEntries && this.maxSourceBytes == maxSourceBytes
    {
      entries, order, sourceBytes := map[], [], 0;
      this.maxEntries, this.maxSourceBytes := maxEntries, maxSourceBytes;
    }

    ghost predicate Valid()
      reads this
    {
      Queued(entries, order, sourceBytes) && |entries| <= maxEntries && sourceBytes <= maxSourceBytes
    }

    /** Every entry is what lowering its file again gives. */
    ghost predicate Faithful<Ast>(front: Front<Ast, Lir>)
      reads this
    {
      forall p :: p in entries ==> front.Lower(p, entries[p].code, entries[p].externals) == Ok(entries[p].lir)
    }

    ghost predicate Hit(path: Path, code: string, externals: Externals)
      reads this
    {
      path in entries && entries[path].code == code && entries[path].externals == externals
    }

    method Get(path: Path, code: string, externals: Externals) returns (r: Option<Lir>)
      ensures r.Some? <==> Hit(path, code, externals)
      ensures r.Some? ==> r.value == entries[path].lir
    {
      if path !in entries { return None; }
      var entry := entries[path];
      return if entry.code == code && entry.externals == externals then Some(entry.lir) else None;
    }

    /** Add a file or replace it in its place in the queue, then evict. */
    method Insert(path: Path, code: string, externals: Externals, lir: Lir)
      requires Valid()
      modifies this
      ensures Valid()
      ensures maxEntries == 0 || |code| > maxSourceBytes ==> entries == old(entries) && order == old(order)
      ensures maxEntries > 0 && |code| <= maxSourceBytes ==>
                var es := old(entries)[path := Entry(code, externals, lir)];
                var ps := if path in old(entries) then old(order) else old(order) + [path];
                && (forall p :: p in ps ==> p in es)
                && order == Evict(es, ps, Bounds(maxEntries, maxSourceBytes))
                && (forall p :: p in entries ==> p in es && entries[p] == es[p])
      ensures path !in old(entries) && maxEntries > 0 && |code| <= maxSourceBytes ==> path in entries
    {
      if maxEntries == 0 || |code| > maxSourceBytes { return; }
      hide Queued, Total, Fits, Evict, Distinct;
      Put(path, Entry(code, externals, lir));
      QueueDomain(entries, order, sourceBytes);
      if path !in old(entries) {
        NewStays(entries, old(order), Bounds(maxEntries, maxSourceBytes), path);
      }
      Trim();
    }

    /** Add or replace one entry; a replaced file keeps its position. */
    method Put(path: Path, e: Entry<Lir>)
      requires Queued(entries, order, sourceBytes)
      modifies this
      ensures Queued(entries, order, sourceBytes) && entries == old(entries)[path := e]
      ensures order == if path in old(entries) then old(order) else old(order) + [path]
    {
      hide Queued;
      if path in entries {
        QueueReplace(entries, order, sourceBytes, path, e);
        sourceBytes := sourceBytes - |entries[path].code|;
        entries := entries - {path};
      } else {
        QueueAdd(entries, order, sourceBytes, path, e);
        order := order + [path];
      }
      sourceBytes := sourceBytes + |e.code|;
      entries := entries[path := e];
      assert entries == old(entries)[path := e];
    }

    /** Evict from the front until both bounds hold. */
    method Trim()
      requires Queued(entries, order, sourceBytes)
      modifies this
      ensures Valid() && (forall p :: p in old(order) ==> p in old(entries))
      ensures order == Evict(old(entries), old(order), Bounds(maxEntries, maxSourceBytes))
      ensures (forall p :: p in order <==> p in entries)
              && forall p :: p in entries ==> p in old(entries) && entries[p] == old(entries)[p]
    {
      hide Queued, Total, Fits, Evict, Distinct;
      ghost var es, ps, b := entries, order, Bounds(maxEntries, maxSourceBytes);
      QueueDomain(es, ps, sourceBytes);
      while |entries| > maxEntries || sourceBytes > maxSourceBytes
        invariant Queued(entries, order, sourceBytes)
        invariant forall p :: p in order ==> p in es
        invariant forall p :: p in entries ==> p in es && entries[p] == es[p]
        invariant Evict(es, order, b) == Evict(es, ps, b)
        decreases |order|
      {
        EvictStep(entries, es, order, sourceBytes, b);
        var front := order[0];
        order := order[1..];
        var entry := entries[front];
        entries := entries - {front};
        sourceBytes := sourceBytes - |entry.code|;
      }
      EvictDone(entries, es, order, sourceBytes, b);
    }
  }

  lemma QueueDomain<Lir>(es: map<Path, Entry<Lir>>, ps: seq<Path>, bytes: nat)
    requires Queued(es, ps, bytes)
    ensures Distinct(ps) && bytes == Total(es, ps) && forall p :: p in ps <==> p in es
  {}

  /** While a bound is exceeded the front of the queue goes. */
  lemma EvictStep<Lir>(now: map<Path, Entry<Lir>>, es: map<Path, Entry<Lir>>, ps: seq<Path>, bytes: nat, b: Bounds)
    requires Queued(now, ps, bytes) && (|now| > b.entries || bytes > b.bytes)
    requires forall p :: p in now ==> p in es && now[p] == es[p]
    ensures ps != [] && ps[0] in now && (forall p :: p in ps ==> p in es) && |now[ps[0]].code| <= bytes
    ensures Queued(now - {ps[0]}, ps[1..], bytes - |now[ps[0]].code|)
    ensures Evict(es, ps[1..], b) == Evict(es, ps, b)
  {
    hide Queued, Distinct;
    QueueDomain(now, ps, bytes);
    QueueSize(now, ps, bytes);
    TotalFrame(now, es, ps);
    EvictOne(now, ps, bytes);
  }

  lemma EvictDone<Lir>(now: map<Path, Entry<Lir>>, es: map<Path, Entry<Lir>>, ps: seq<Path>, bytes: nat, b: Bounds)
    requires Queued(now, ps, bytes) && |now| <= b.entries && bytes <= b.bytes
    requires forall p :: p in now ==> p in es && now[p] == es[p]
    ensures (forall p :: p in ps <==> p in now) && Evict(es, ps, b) == ps
  {
    hide Queued, Distinct;
    QueueDomain(now, ps, bytes);
    QueueSize(now, ps, bytes);
    TotalFrame(now, es, ps);
  }

  datatype File<+Ast, +Lir> = File(
    /** None when the contents are not UTF-8. */
    code: Option<string>,
    parsed: Option<Ast>,
    prepared: Option<(Externals, Lir)>)

  class State<Ast, Lir> {
    const front: Front<Ast, Lir>
    const cache: Cache?<Lir>
    var files: map<Path, File<Ast, Lir>>
    ghost var parses: nat

    constructor (front: Front<Ast, Lir>, cache: Cache?<Lir>)
      ensures this.front == front && this.cache == cache && files == map[] && parses == 0
    {
      this.front, this.cache, files, parses := front, cache, map[], 0;
    }

    /** What a file remembers is what doing the work again gives. */
    ghost predicate Remembers(p: Path, f: File<Ast, Lir>) {
      && (f.parsed.Some? ==> f.code.Some? && front.parse(p, f.code.value) == f.parsed)
      && (f.prepared.Some? ==>
            f.code.Some? && front.Lower(p, f.code.value, f.prepared.value.0) == Ok(f.prepared.value.1))
    }

    ghost predicate Valid()
      reads this, cache
    {
      && (cache != null ==> cache.Valid() && cache.Faithful(front))
      && forall p :: p in files ==> Remembers(p, files[p])
    }

    /** Put freshly lowered code where other states find it. */
    method Share(path: Path, code: string, externals: Externals, lir: Lir)
      requires Valid() && cache != null && front.Lower(path, code, externals) == Ok(lir)
      modifies cache
      ensures Valid()
    {
      hide Queued, Evict, Front.Lower, Remembers;
      cache.Insert(path, code, externals, lir);
    }

    /** Parse and analyse a loaded file, and share the result. */
    method Make(path: Path, code: string, externals: Externals) returns (r: Result<Lir>)
      requires Valid() && path in files && files[path].code == Some(code)
      modifies this, cache
      ensures Valid() && r == front.Lower(path, code, externals)
      ensures files.Keys == old(files.Keys) && forall p :: p in files && p != path ==> files[p] == old(files[p])
      ensures files[path].code == Some(code) && files[path].prepared == old(files[path].prepared)
      ensures files[path].parsed == if cache == null then front.parse(path, code) else old(files[path].parsed)
      ensures parses == old(parses) + if old(files[path].parsed.None?) then 1 else 0
    {
      var parsed := files[path].parsed;
      if parsed.None? {
        parsed, parses := front.parse(path, code), parses + 1;
        if parsed.None? { return Err(SyntaxError); }
        if cache == null { files := files[path := files[path].(parsed := parsed)]; }
      }
      var report := front.analyze(parsed.value, externals);
      if report.None? { return Err(AnalysisError); }
      r := Ok(report.value);
      if cache != null { Share(path, code, externals, report.value); }
    }

    /** Nothing is parsed for a file whose lowered code is known here or in the cache, or which was parsed. */
    ghost predicate Spared(path: Path, code: string, externals: Externals)
      reads this, cache
    {
      || (path in files && (files[path].parsed.Some?
                            || (files[path].prepared.Some? && files[path].prepared.value.0 == externals)))
      || (cache != null && cache.Hit(path, code, externals))
    }

    /** Lowered code of a file whose text is at hand. */
    method Lowered(path: Path, code: string, externals: Externals) returns (r: Result<Lir>)
      requires Valid() && path in files && files[path].code == Some(code)
      modifies this, cache
      ensures Valid() && r == front.Lower(path, code, externals)
      ensures files.Keys == old(files.Keys) && forall p :: p in files && p != path ==> files[p] == old(files[p])
      ensures files[path].code == Some(code)
      ensures r.Ok? && cache != null ==> files[path].prepared == Some((externals, r.v))
      ensures parses == old(parses) + if old(Spared(path, code, externals)) then 0 else 1
    {
      hide Front.Lower, Cache.Valid;
      var file := files[path];
      var cached: Option<Lir> := None;
      if file.prepared.Some? && file.prepared.value.0 == externals {
        cached := Some(file.prepared.value.1);
      } else if cache != null {
        cached := cache.Get(path, code, externals);
      }
      if cached.Some? {
        r := Ok(cached.value);
      } else {
        r := Make(path, code, externals);
        if r.Err? { return; }
      }
      if cache != null {
        files := files[path := files[path].(prepared := Some((externals, r.v)))];
      }
    }

    /** The lowered code an import evaluates. `loaded` is what the resolver gives for a path that is not
        cached: None if loading fails, the text if the contents are UTF-8. */
    method Prepare(path: Path, loaded: Option<Option<string>>, externals: Externals) returns (r: Result<Lir>)
      requires Valid()
      modifies this, cache
      ensures Valid()
      ensures path in files <==> path in old(files) || (loaded.Some? && loaded.value.Some?)
      ensures forall p :: p in old(files) ==> p in files && files[p].code == old(files[p].code)
      ensures forall p :: p in files && p != path ==> p in old(files) && files[p] == old(files[p])
      ensures path in files ==>
                r == if files[path].code.None? then Err(BadUtf8)
                     else front.Lower(path, files[path].code.value, externals)
      ensures path in files && path !in old(files) ==> loaded == Some(files[path].code) && loaded.value.Some?
      ensures path !in files ==> r == Err(if loaded.None? then NotLoaded else BadUtf8)
      ensures r.Ok? && cache != null ==> files[path].prepared == Some((externals, r.v))
      ensures path in files && files[path].code.Some? ==>
                var code := files[path].code.value;
                parses == old(parses) + if old(Spared(path, code, externals)) then 0 else 1
      ensures path !in files || files[path].code.None? ==> parses == old(parses)
    {
      hide Front.Lower, Cache.Valid, Cache.Faithful, Cache.Hit;
      if path !in files {
        if loaded.None? { return Err(NotLoaded); }
        if loaded.value.None? { return Err(BadUtf8); }
        files := files[path := File(loaded.value, None, None)];
      }
      var file := files[path];
      if file.code.None? { return Err(BadUtf8); }
      r := Lowered(path, file.code.value, externals);
    }
  }
}
