/** Loading everything a program can import before it is evaluated: a worklist over an import graph
    that may have cycles. */
module AsyncImports {
  import opened Options

  type Path = string

  datatype Import = Import(req: string, expr: bool)

  datatype Data = Text(s: string) | Binary

  /** A loaded file; `parsed` holds the imports of its syntax tree in visiting order. */
  datatype File = File(data: Data, parsed: Option<seq<Import>>)

  datatype Key = Key(from: Path, req: string)

  /** A resolved import, and whether some import of it so far is an expression. */
  datatype Target = Target(path: Path, expr: bool)

  datatype Job = LoadFile(path: Path, parse: bool) | ParseFile(path: Path) | ResolveImport(from: Path, imp: Import)

  datatype Outcome = Done(entry: Path) | EntryUnresolved | Unresolved(at: Key) | Unloadable(path: Path)

  /** The asynchronous handler and the parser, which sees only imports. */
  datatype Host = Host(resolve: Key -> Option<Path>, load: Path -> Option<Data>, parse: string -> Option<seq<Import>>)

  /** The file cache and the table of resolved imports. */
  datatype Store = Store(files: map<Path, File>, resolved: map<Key, Target>)

  function Parse(h: Host, d: Data): Option<seq<Import>> {
    if d.Text? then h.parse(d.s) else None
  }

  predicate Parsed(st: Store, p: Path) {
    p in st.files && st.files[p].parsed.Some?
  }

  /** Import `imp` of file `p` is in the table, as an expression if it is one. */
  predicate Link(st: Store, p: Path, imp: Import) {
    Key(p, imp.req) in st.resolved && (imp.expr ==> st.resolved[Key(p, imp.req)].expr)
  }

  /** Every import of every parsed file is resolved. */
  ghost predicate Linked(st: Store) {
    forall p, imp :: Parsed(st, p) && imp in st.files[p].parsed.value ==> Link(st, p, imp)
  }

  /** Nothing is left to do for file `p`: it is loaded, and parsed unless it does not parse. */
  ghost predicate Settled(h: Host, st: Store, p: Path) {
    p in st.files && (st.files[p].parsed.Some? || Parse(h, st.files[p].data).None?)
  }

  /** Every resolved target is loaded, and settled when some import of it is an expression. */
  ghost predicate Loaded(h: Host, st: Store) {
    forall k :: k in st.resolved ==>
      st.resolved[k].path in st.files && (st.resolved[k].expr ==> Settled(h, st, st.resolved[k].path))
  }

  ghost predicate Closed(h: Host, st: Store) {
    Linked(st) && Loaded(h, st)
  }

  // ---------------------------------------------------------------- the graph a run can see

  /** Imports that parsing `p` would add, given what is cached. */
  ghost function Found(h: Host, st: Store, p: Path): seq<Import> {
    if p in st.files then
      if st.files[p].parsed.Some? then [] else Parse(h, st.files[p].data).GetOr([])
    else
      var d := h.load(p);
      if d.Some? then Parse(h, d.value).GetOr([]) else []
  }

  /** `u` is closed under the imports a run from `st` can find. */
  ghost predicate Covers(h: Host, st: Store, u: set<Path>) {
    forall p, imp :: p in u && imp in Found(h, st, p) ==>
      var k := Key(p, imp.req);
      && (k in st.resolved ==> st.resolved[k].path in u)
      && (k !in st.resolved && h.resolve(k).Some? ==> h.resolve(k).value in u)
  }

  ghost function Keys(h: Host, st: Store, u: set<Path>): set<Key> {
    set p, imp | p in u && imp in Found(h, st, p) :: Key(p, imp.req)
  }

  // ---------------------------------------------------------------- one run

  /** `st` extends `st0`: nothing is forgotten or changed, flags only rise, and new facts are right. */
  ghost predicate Extends(h: Host, st0: Store, st: Store, u: set<Path>) {
    && st0.files.Keys <= st.files.Keys <= st0.files.Keys + u
    && (forall p :: p in st.files ==>
          && (if p in st0.files then st.files[p].data == st0.files[p].data else h.load(p) == Some(st.files[p].data))
          && (if Parsed(st0, p) then st.files[p].parsed == st0.files[p].parsed
              else st.files[p].parsed.Some? ==> p in u && st.files[p].parsed == Parse(h, st.files[p].data)))
    && st0.resolved.Keys <= st.resolved.Keys
    && (forall k :: k in st.resolved ==>
          if k in st0.resolved then
            st.resolved[k].path == st0.resolved[k].path && (st0.resolved[k].expr ==> st.resolved[k].expr)
          else k in Keys(h, st0, u) && h.resolve(k) == Some(st.resolved[k].path))
    && (forall k :: k in st.resolved && Parsed(st0, k.from) ==>
          k in st0.resolved && st.resolved[k] == st0.resolved[k])
  }

  /** Jobs stay inside the graph; an import waits only while its own file is parsed in this run. */
  ghost predicate JobOk(h: Host, st0: Store, st: Store, u: set<Path>, entry: Path, j: Job) {
    match j
    case LoadFile(p, _) => p in u && (p == entry || exists k :: k in st.resolved && st.resolved[k].path == p)
    case ParseFile(p) => p in u
    case ResolveImport(p, imp) =>
      p in u && imp in Found(h, st0, p) && Parsed(st, p) && imp in st.files[p].parsed.value && !Parsed(st0, p)
  }

  /** What is not yet true of the store is waiting in the queue. */
  ghost predicate LinksWait(st0: Store, st: Store, q: seq<Job>) {
    forall p, imp :: Parsed(st, p) && imp in st.files[p].parsed.value && !Parsed(st0, p) ==>
      Link(st, p, imp) || ResolveImport(p, imp) in q
  }

  ghost predicate SettleWaits(h: Host, st: Store, q: seq<Job>, p: Path) {
    Settled(h, st, p) || LoadFile(p, true) in q || (p in st.files && ParseFile(p) in q)
  }

  /** The only target not loaded yet is the one on top of the stack. */
  ghost predicate LoadsWait(h: Host, st: Store, q: seq<Job>) {
    forall k :: k in st.resolved ==>
      var t := st.resolved[k];
      && (t.path in st.files || (q != [] && q[|q| - 1].LoadFile? && q[|q| - 1].path == t.path))
      && (t.expr ==> SettleWaits(h, st, q, t.path))
  }

  ghost predicate Running(h: Host, st0: Store, st: Store, u: set<Path>, entry: Path, q: seq<Job>) {
    && Extends(h, st0, st, u)
    && (forall j :: j in q ==> JobOk(h, st0, st, u, entry, j))
    && LinksWait(st0, st, q)
    && SettleWaits(h, st, q, entry)
    && (Loaded(h, st0) ==> LoadsWait(h, st, q))
  }

  function Weight(q: seq<Job>): nat {
    if q == [] then 0 else Weight(q[..|q| - 1]) + if q[|q| - 1].LoadFile? then 2 else 1
  }

  ghost function Unparsed(files: map<Path, File>, u: set<Path>): set<Path> {
    set p | p in u && (p !in files || files[p].parsed.None?)
  }

  ghost function Unflagged(resolved: map<Key, Target>, ks: set<Key>): set<Key> {
    set k | k in ks && k in resolved && !resolved[k].expr
  }

  // ---------------------------------------------------------------- the steps of a run

  lemma WeightPush(q: seq<Job>, j: Job)
    ensures Weight(q + [j]) == Weight(q) + if j.LoadFile? then 2 else 1
  {
    assert (q + [j])[..|q|] == q;
  }

  /** One step of a run: facts about files and imports are added, none is lost. */
  ghost predicate Grows(st: Store, st': Store) {
    && (forall p :: p in st.files ==> p in st'.files && st'.files[p].data == st.files[p].data
                                      && (st.files[p].parsed.Some? ==> st'.files[p].parsed == st.files[p].parsed))
    && (forall k :: k in st.resolved ==>
          k in st'.resolved && st'.resolved[k].path == st.resolved[k].path
          && (st.resolved[k].expr ==> st'.resolved[k].expr))
  }

  lemma JobsKept(h: Host, st0: Store, st: Store, st': Store, u: set<Path>, entry: Path, q: seq<Job>)
    requires Grows(st, st') && forall i :: i in q ==> JobOk(h, st0, st, u, entry, i)
    ensures forall i :: i in q ==> JobOk(h, st0, st', u, entry, i)
  {
    forall i | i in q ensures JobOk(h, st0, st', u, entry, i) {
      assert JobOk(h, st0, st, u, entry, i);
      if i.LoadFile? && i.path != entry {
        var k :| k in st.resolved && st.resolved[k].path == i.path;
        assert k in st'.resolved && st'.resolved[k].path == i.path;
      }
    }
  }

  /** The job done has linked the import it was for. */
  lemma LinksKept(st0: Store, st: Store, st': Store, q: seq<Job>, q': seq<Job>, j: Job)
    requires Grows(st, st') && LinksWait(st0, st, q + [j]) && q <= q'
    requires j.ResolveImport? ==> Link(st', j.from, j.imp)
    requires forall p, imp :: Parsed(st', p) && imp in st'.files[p].parsed.value && !Parsed(st, p) ==>
               ResolveImport(p, imp) in q'
    ensures LinksWait(st0, st', q')
  {
    forall p, imp | Parsed(st', p) && imp in st'.files[p].parsed.value && !Parsed(st0, p)
      ensures Link(st', p, imp) || ResolveImport(p, imp) in q'
    {
      if Parsed(st, p) { assert Link(st, p, imp) || ResolveImport(p, imp) in q + [j]; }
    }
  }

  /** The job done has loaded or settled the file it was for. */
  lemma SettleKept(h: Host, st: Store, st': Store, q: seq<Job>, q': seq<Job>, j: Job, x: Path)
    requires SettleWaits(h, st, q + [j], x) && Grows(st, st') && q <= q'
    requires j.LoadFile? ==> j.path in st'.files && (j.parse ==> ParseFile(j.path) in q')
    requires j.ParseFile? && j.path in st.files ==> Settled(h, st', j.path)
    ensures SettleWaits(h, st', q', x)
  {}

  /** A load or a parse leaves every target loaded. */
  lemma LoadsKept(h: Host, st: Store, st': Store, q: seq<Job>, q': seq<Job>, j: Job)
    requires LoadsWait(h, st, q + [j]) && Grows(st, st') && q <= q' && st'.resolved == st.resolved && !j.ResolveImport?
    requires j.LoadFile? ==> j.path in st'.files && (j.parse ==> ParseFile(j.path) in q')
    requires j.ParseFile? && j.path in st.files ==> Settled(h, st', j.path)
    ensures LoadsWait(h, st', q')
  {
    assert (q + [j])[|q|] == j;
    forall k | k in st'.resolved ensures st'.resolved[k].expr ==> SettleWaits(h, st', q', st'.resolved[k].path) {
      if st'.resolved[k].expr { SettleKept(h, st, st', q, q', j, st'.resolved[k].path); }
    }
  }

  /** Everything a step must keep, given what it did to the table and to the cache. */
  lemma Stepped(h: Host, st0: Store, st: Store, st': Store, u: set<Path>, entry: Path,
                q: seq<Job>, q': seq<Job>, j: Job)
    requires Running(h, st0, st, u, entry, q + [j]) && Extends(h, st0, st', u) && Grows(st, st') && q <= q'
    requires forall i :: i in q' && i !in q ==> JobOk(h, st0, st', u, entry, i)
    requires j.ResolveImport? ==> Link(st', j.from, j.imp)
    requires forall p, imp :: Parsed(st', p) && imp in st'.files[p].parsed.value && !Parsed(st, p) ==>
               ResolveImport(p, imp) in q'
    requires j.LoadFile? ==> j.path in st'.files && (j.parse ==> ParseFile(j.path) in q')
    requires j.ParseFile? && j.path in st.files ==> Settled(h, st', j.path)
    requires Loaded(h, st0) ==> LoadsWait(h, st', q')
    ensures Running(h, st0, st', u, entry, q')
  {
    hide Extends, Grows, LoadsWait, Loaded, LinksWait, SettleWaits, Settled, JobOk, Link, Parsed;
    JobsKept(h, st0, st, st', u, entry, q);
    LinksKept(st0, st, st', q, q', j);
    SettleKept(h, st, st', q, q', j, entry);
  }

  lemma TopJob(h: Host, st0: Store, st: Store, u: set<Path>, entry: Path, q: seq<Job>, j: Job)
    requires Running(h, st0, st, u, entry, q + [j])
    ensures JobOk(h, st0, st, u, entry, j) && Extends(h, st0, st, u)
    ensures Loaded(h, st0) ==> LoadsWait(h, st, q + [j])
  {
    hide *;
    assert (q + [j])[|q|] == j;
    Parts(h, st0, st, u, entry, q + [j]);
  }

  lemma Parts(h: Host, st0: Store, st: Store, u: set<Path>, entry: Path, q: seq<Job>)
    requires Running(h, st0, st, u, entry, q)
    ensures Extends(h, st0, st, u) && (Loaded(h, st0) ==> LoadsWait(h, st, q))
    ensures forall j :: j in q ==> JobOk(h, st0, st, u, entry, j)
  {
    hide Extends, Loaded, LoadsWait, JobOk;
  }

  lemma LoadMeasure(st: Store, u: set<Path>, q: seq<Job>, j: Job, d: Data)
    requires j.LoadFile?
    ensures Weight(q + [ParseFile(j.path)]) < Weight(q + [j]) && Weight(q) < Weight(q + [j])
    ensures j.path !in st.files ==> Unparsed(st.files[j.path := File(d, None)], u) == Unparsed(st.files, u)
  {
    WeightPush(q, j);
    WeightPush(q, ParseFile(j.path));
  }

  lemma LoadExtends(h: Host, st0: Store, st: Store, u: set<Path>, p: Path, d: Data)
    requires Extends(h, st0, st, u) && p !in st.files && p in u && h.load(p) == Some(d)
    ensures Extends(h, st0, st.(files := st.files[p := File(d, None)]), u)
  {}

  lemma LoadStep(h: Host, st0: Store, st: Store, u: set<Path>, entry: Path, q: seq<Job>, j: Job, d: Data)
    returns (st': Store, q': seq<Job>)
    requires Running(h, st0, st, u, entry, q + [j]) && j.LoadFile?
    requires j.path !in st.files ==> h.load(j.path) == Some(d)
    ensures st' == if j.path in st.files then st else st.(files := st.files[j.path := File(d, None)])
    ensures q' == if j.parse then q + [ParseFile(j.path)] else q
    ensures Running(h, st0, st', u, entry, q') && Extends(h, st0, st', u)
    ensures Unparsed(st'.files, u) == Unparsed(st.files, u) && Weight(q') < Weight(q + [j])
  {
    hide *;
    LoadMeasure(st, u, q, j, d);
    TopJob(h, st0, st, u, entry, q, j);
    st' := if j.path in st.files then st else st.(files := st.files[j.path := File(d, None)]);
    q' := if j.parse then q + [ParseFile(j.path)] else q;
    LoadEffect(h, st0, st, st', u, entry, j, d);
    if Loaded(h, st0) { LoadsKept(h, st, st', q, q', j); }
    Stepped(h, st0, st, st', u, entry, q, q', j);
  }

  lemma LoadEffect(h: Host, st0: Store, st: Store, st': Store, u: set<Path>, entry: Path, j: Job, d: Data)
    requires Extends(h, st0, st, u) && j.LoadFile? && JobOk(h, st0, st, u, entry, j)
    requires j.path !in st.files ==> h.load(j.path) == Some(d)
    requires st' == if j.path in st.files then st else st.(files := st.files[j.path := File(d, None)])
    ensures Extends(h, st0, st', u) && Grows(st, st') && JobOk(h, st0, st', u, entry, ParseFile(j.path))
    ensures forall p :: Parsed(st', p) ==> Parsed(st, p)
  {
    if j.path !in st.files { LoadExtends(h, st0, st, u, j.path, d); }
    hide Extends;
  }

  lemma ParseExtends(h: Host, st0: Store, st: Store, u: set<Path>, p: Path, f: File)
    requires Extends(h, st0, st, u) && p in st.files && p in u && st.files[p].parsed.None?
    requires f.data == st.files[p].data && f.parsed == Parse(h, f.data)
    ensures Extends(h, st0, st.(files := st.files[p := f]), u)
    ensures f.parsed.Some? ==> Found(h, st0, p) == f.parsed.value && !Parsed(st0, p)
  {}

  lemma ParseStep(h: Host, st0: Store, st: Store, u: set<Path>, entry: Path, q: seq<Job>, p: Path)
    returns (st': Store, q': seq<Job>)
    requires Running(h, st0, st, u, entry, q + [ParseFile(p)])
    ensures var f := if p in st.files then st.files[p] else File(Binary, None);
            if p in st.files && f.parsed.None? && Parse(h, f.data).Some? then
              var imps := Parse(h, f.data).value;
              && st' == st.(files := st.files[p := f.(parsed := Some(imps))])
              && |q'| == |q| + |imps| && q' == q + Imports(p, imps)
              && Unparsed(st'.files, u) < Unparsed(st.files, u)
            else st' == st && q' == q
    ensures Running(h, st0, st', u, entry, q') && Extends(h, st0, st', u)
    ensures Weight(q) < Weight(q + [ParseFile(p)])
  {
    hide *;
    var j := ParseFile(p);
    WeightPush(q, j);
    TopJob(h, st0, st, u, entry, q, j);
    st', q' := st, q;
    if p in st.files && st.files[p].parsed.None? && Parse(h, st.files[p].data).Some? {
      var imps := Parse(h, st.files[p].data).value;
      st', q' := st.(files := st.files[p := st.files[p].(parsed := Some(imps))]), q + Imports(p, imps);
      ParseEffect(h, st0, st, st', u, entry, p, imps);
    } else {
      ParseNothing(h, st, p);
    }
    if Loaded(h, st0) { LoadsKept(h, st, st', q, q', j); }
    Stepped(h, st0, st, st', u, entry, q, q', j);
  }

  lemma ParseNothing(h: Host, st: Store, p: Path)
    requires !(p in st.files && st.files[p].parsed.None? && Parse(h, st.files[p].data).Some?)
    ensures Grows(st, st) && (p in st.files ==> Settled(h, st, p))
  {}

  lemma ParseEffect(h: Host, st0: Store, st: Store, st': Store, u: set<Path>, entry: Path, p: Path, imps: seq<Import>)
    requires Extends(h, st0, st, u) && JobOk(h, st0, st, u, entry, ParseFile(p))
    requires p in st.files && st.files[p].parsed.None? && Parse(h, st.files[p].data) == Some(imps)
    requires st' == st.(files := st.files[p := st.files[p].(parsed := Some(imps))])
    ensures Extends(h, st0, st', u) && Grows(st, st') && Unparsed(st'.files, u) < Unparsed(st.files, u)
    ensures Settled(h, st', p) && forall i :: i in Imports(p, imps) ==> JobOk(h, st0, st', u, entry, i)
    ensures forall p2, imp :: Parsed(st', p2) && imp in st'.files[p2].parsed.value && !Parsed(st, p2) ==>
              ResolveImport(p2, imp) in Imports(p, imps)
  {
    ParseExtends(h, st0, st, u, p, st'.files[p]);
    hide Extends;
    assert p in Unparsed(st.files, u) && p !in Unparsed(st'.files, u);
    forall imp | imp in imps ensures ResolveImport(p, imp) in Imports(p, imps) {
      var i :| 0 <= i < |imps| && imps[i] == imp;
      assert Imports(p, imps)[i] == ResolveImport(p, imp);
    }
  }

  lemma UpgradeStep(h: Host, st0: Store, st: Store, u: set<Path>, entry: Path, q: seq<Job>, p: Path, imp: Import)
    returns (st': Store, q': seq<Job>)
    requires Covers(h, st0, u) && Running(h, st0, st, u, entry, q + [ResolveImport(p, imp)])
    requires Key(p, imp.req) in st.resolved
    ensures var k := Key(p, imp.req);
            if imp.expr && !st.resolved[k].expr then
              && st' == st.(resolved := st.resolved[k := st.resolved[k].(expr := true)])
              && q' == q + [ParseFile(st.resolved[k].path)]
            else st' == st && q' == q
    ensures Running(h, st0, st', u, entry, q') && Extends(h, st0, st', u)
    ensures var ks := Keys(h, st0, u);
            st' != st ==> Unflagged(st'.resolved, ks) < Unflagged(st.resolved, ks)
    ensures Weight(q) < Weight(q + [ResolveImport(p, imp)])
  {
    hide *;
    var j, k := ResolveImport(p, imp), Key(p, imp.req);
    WeightPush(q, j);
    TopJob(h, st0, st, u, entry, q, j);
    var t := st.resolved[k];
    if imp.expr && !t.expr {
      st', q' := st.(resolved := st.resolved[k := t.(expr := true)]), q + [ParseFile(t.path)];
    } else {
      st', q' := st, q;
    }
    UpgradeEffect(h, st0, st, st', u, entry, p, imp);
    if Loaded(h, st0) { UpgradeKept(h, st, st', q, q', j); }
    Stepped(h, st0, st, st', u, entry, q, q', j);
  }

  lemma UpgradeEffect(h: Host, st0: Store, st: Store, st': Store, u: set<Path>, entry: Path, p: Path, imp: Import)
    requires Covers(h, st0, u) && Extends(h, st0, st, u) && JobOk(h, st0, st, u, entry, ResolveImport(p, imp))
    requires Key(p, imp.req) in st.resolved
    requires var k := Key(p, imp.req);
             st' == if imp.expr && !st.resolved[k].expr
                    then st.(resolved := st.resolved[k := st.resolved[k].(expr := true)]) else st
    ensures Extends(h, st0, st', u) && Grows(st, st') && Link(st', p, imp)
    ensures JobOk(h, st0, st', u, entry, ParseFile(st.resolved[Key(p, imp.req)].path))
    ensures forall p :: Parsed(st', p) ==> Parsed(st, p)
    ensures st' != st ==> Unflagged(st'.resolved, Keys(h, st0, u)) < Unflagged(st.resolved, Keys(h, st0, u))
  {
    hide Extends, Covers;
    var k, ks := Key(p, imp.req), Keys(h, st0, u);
    assert k in ks;
    hide Keys;
    UpgradeExtends(h, st0, st, u, k, imp);
    if imp.expr && !st.resolved[k].expr {
      assert k in Unflagged(st.resolved, ks) && k !in Unflagged(st'.resolved, ks);
    }
  }

  /** The file of an upgraded import is loaded already, so queueing a parse is enough. */
  lemma UpgradeKept(h: Host, st: Store, st': Store, q: seq<Job>, q': seq<Job>, j: Job)
    requires j.ResolveImport? && Key(j.from, j.imp.req) in st.resolved && LoadsWait(h, st, q + [j])
    requires var k := Key(j.from, j.imp.req);
             if j.imp.expr && !st.resolved[k].expr then
               && st' == st.(resolved := st.resolved[k := st.resolved[k].(expr := true)])
               && q' == q + [ParseFile(st.resolved[k].path)]
             else st' == st && q' == q
    ensures LoadsWait(h, st', q')
  {
    assert (q + [j])[|q|] == j;
    forall k | k in st'.resolved ensures st'.resolved[k].expr ==> SettleWaits(h, st', q', st'.resolved[k].path) {
      if st.resolved[k].expr { SettleKept(h, st, st', q, q', j, st.resolved[k].path); }
    }
  }

  lemma UpgradeExtends(h: Host, st0: Store, st: Store, u: set<Path>, k: Key, imp: Import)
    requires Covers(h, st0, u) && Extends(h, st0, st, u) && k in st.resolved && !Parsed(st0, k.from)
    requires k.from in u && imp in Found(h, st0, k.from) && k == Key(k.from, imp.req)
    ensures Extends(h, st0, st.(resolved := st.resolved[k := st.resolved[k].(expr := true)]), u)
    ensures st.resolved[k].path in u
  {}

  lemma ResolveStep(h: Host, st0: Store, st: Store, u: set<Path>, entry: Path, q: seq<Job>, p: Path, imp: Import)
    returns (st': Store, q': seq<Job>)
    requires Covers(h, st0, u) && Running(h, st0, st, u, entry, q + [ResolveImport(p, imp)])
    requires var k := Key(p, imp.req); k !in st.resolved && h.resolve(k).Some?
    ensures var k, t := Key(p, imp.req), h.resolve(Key(p, imp.req)).value;
            && st' == st.(resolved := st.resolved[k := Target(t, imp.expr)])
            && q' == q + [LoadFile(t, imp.expr)]
            && Keys(h, st0, u) - st'.resolved.Keys < Keys(h, st0, u) - st.resolved.Keys
    ensures Running(h, st0, st', u, entry, q') && Extends(h, st0, st', u)
  {
    hide *;
    var j, k := ResolveImport(p, imp), Key(p, imp.req);
    TopJob(h, st0, st, u, entry, q, j);
    var t := h.resolve(k).value;
    st' := st.(resolved := st.resolved[k := Target(t, imp.expr)]);
    q' := q + [LoadFile(t, imp.expr)];
    ResolveEffect(h, st0, st, st', u, entry, p, imp, t);
    if Loaded(h, st0) { TargetKept(h, st, st', q, q', j); }
    Stepped(h, st0, st, st', u, entry, q, q', j);
  }

  lemma ResolveEffect(h: Host, st0: Store, st: Store, st': Store, u: set<Path>, entry: Path, p: Path, imp: Import, t: Path)
    requires Covers(h, st0, u) && Extends(h, st0, st, u) && JobOk(h, st0, st, u, entry, ResolveImport(p, imp))
    requires Key(p, imp.req) !in st.resolved && h.resolve(Key(p, imp.req)) == Some(t)
    requires st' == st.(resolved := st.resolved[Key(p, imp.req) := Target(t, imp.expr)])
    ensures Extends(h, st0, st', u) && Grows(st, st') && Link(st', p, imp)
    ensures JobOk(h, st0, st', u, entry, LoadFile(t, imp.expr)) && forall p :: Parsed(st', p) ==> Parsed(st, p)
    ensures Keys(h, st0, u) - st'.resolved.Keys < Keys(h, st0, u) - st.resolved.Keys
  {
    var k, ks := Key(p, imp.req), Keys(h, st0, u);
    assert k in ks;
    hide Keys, Found, Covers, JobOk, Extends;
    assert k in ks - st.resolved.Keys && k !in ks - st'.resolved.Keys;
    ResolveExtends(h, st0, st, st', u, entry, p, imp, t);
  }

  lemma ResolveExtends(h: Host, st0: Store, st: Store, st': Store, u: set<Path>, entry: Path, p: Path, imp: Import, t: Path)
    requires Covers(h, st0, u) && Extends(h, st0, st, u) && JobOk(h, st0, st, u, entry, ResolveImport(p, imp))
    requires Key(p, imp.req) !in st.resolved && h.resolve(Key(p, imp.req)) == Some(t)
    requires st' == st.(resolved := st.resolved[Key(p, imp.req) := Target(t, imp.expr)])
    ensures Extends(h, st0, st', u) && JobOk(h, st0, st', u, entry, LoadFile(t, imp.expr))
  {
    hide Found;
    assert st'.resolved[Key(p, imp.req)].path == t;
  }

  /** A new target is loaded next, whether or not it is loaded already. */
  lemma TargetKept(h: Host, st: Store, st': Store, q: seq<Job>, q': seq<Job>, j: Job)
    requires j.ResolveImport? && Key(j.from, j.imp.req) !in st.resolved && LoadsWait(h, st, q + [j])
    requires exists t ::
               && st' == st.(resolved := st.resolved[Key(j.from, j.imp.req) := Target(t, j.imp.expr)])
               && q' == q + [LoadFile(t, j.imp.expr)]
    ensures LoadsWait(h, st', q')
  {
    assert (q + [j])[|q|] == j;
    forall k | k in st'.resolved ensures st'.resolved[k].expr ==> SettleWaits(h, st', q', st'.resolved[k].path) {
      if k in st.resolved && st.resolved[k].expr { SettleKept(h, st, st', q, q', j, st.resolved[k].path); }
    }
  }

  function Imports(p: Path, imps: seq<Import>): (r: seq<Job>)
    ensures |r| == |imps| && forall i :: 0 <= i < |imps| ==> r[i] == ResolveImport(p, imps[i])
  {
    seq(|imps|, i requires 0 <= i < |imps| => ResolveImport(p, imps[i]))
  }

  lemma Unchanged(h: Host, st: Store, u: set<Path>)
    ensures Extends(h, st, st, u)
  {}

  lemma Started(h: Host, st: Store, u: set<Path>, entry: Path)
    requires entry in u
    ensures Running(h, st, st, u, entry, [LoadFile(entry, true)])
  {}

  /** A file that cannot be loaded is the entry, or a target the table now has and the cache not. */
  lemma NotLoaded(h: Host, st0: Store, st: Store, u: set<Path>, entry: Path, q: seq<Job>, j: Job)
    requires Running(h, st0, st, u, entry, q + [j]) && j.LoadFile? && j.path !in st.files
    ensures j.path == entry || !Loaded(h, st)
  {
    assert JobOk(h, st0, st, u, entry, j) by { assert (q + [j])[|q|] == j; }
  }

  /** `k` is an import of a parsed file, and not in the table. */
  ghost predicate Dangling(st: Store, k: Key) {
    Parsed(st, k.from) && k !in st.resolved && exists imp :: imp in st.files[k.from].parsed.value && imp.req == k.req
  }

  /** An import that cannot be resolved belongs to a file parsed by now, and is not in the table. */
  lemma NotLinked(h: Host, st0: Store, st: Store, u: set<Path>, entry: Path, q: seq<Job>, p: Path, imp: Import)
    requires Running(h, st0, st, u, entry, q + [ResolveImport(p, imp)]) && Key(p, imp.req) !in st.resolved
    ensures Dangling(st, Key(p, imp.req)) && !Linked(st)
  {
    var j := ResolveImport(p, imp);
    assert JobOk(h, st0, st, u, entry, j) by { assert (q + [j])[|q|] == j; }
    assert !Link(st, p, imp);
  }

  /** With an empty queue nothing is waiting. */
  lemma Finished(h: Host, st0: Store, st: Store, u: set<Path>, entry: Path)
    requires Running(h, st0, st, u, entry, [])
    ensures Settled(h, st, entry) && (Linked(st) <==> Linked(st0)) && (Loaded(h, st0) ==> Loaded(h, st))
  {
    forall p, imp | Parsed(st0, p) && imp in st0.files[p].parsed.value ensures Link(st, p, imp) <==> Link(st0, p, imp) {
      assert Key(p, imp.req).from == p;
    }
    if Linked(st) {
      forall p, imp | Parsed(st0, p) && imp in st0.files[p].parsed.value ensures Link(st0, p, imp) {
        assert Parsed(st, p) && imp in st.files[p].parsed.value;
      }
    }
  }

  // ---------------------------------------------------------------- the loop

  class Importer {
    var files: map<Path, File>
    var resolved: map<Key, Target>

    constructor ()
      ensures St() == Store(map[], map[])
    {
      files, resolved := map[], map[];
    }

    ghost function St(): Store
      reads this
    {
      Store(files, resolved)
    }

    /** `u` is any finite set closed under what the run can find; nothing outside it is loaded. */
    method AsyncImport(h: Host, from: Path, req: string, ghost u: set<Path>) returns (r: Outcome)
      requires Covers(h, St(), u)
      requires h.resolve(Key(from, req)).Some? ==> h.resolve(Key(from, req)).value in u
      modifies this
      ensures Extends(h, old(St()), St(), u)
      ensures r.EntryUnresolved? <==> h.resolve(Key(from, req)).None?
      ensures r.EntryUnresolved? ==> St() == old(St())
      ensures r.Done? ==> h.resolve(Key(from, req)) == Some(r.entry) && Settled(h, St(), r.entry)
      ensures r.Done? ==> (Linked(St()) <==> Linked(old(St()))) && (Loaded(h, old(St())) ==> Loaded(h, St()))
      ensures r.Unresolved? ==> h.resolve(r.at).None? && Dangling(St(), r.at) && !Linked(St())
      ensures r.Unloadable? ==> h.load(r.path).None? && r.path !in files
                                && (h.resolve(Key(from, req)) == Some(r.path) || !Loaded(h, St()))
    {
      hide Running, Extends, JobOk, LinksWait, SettleWaits, LoadsWait, Covers, Found, Keys;
      hide Linked, Loaded, Settled, Link, Weight, Parsed, Unparsed, Unflagged;
      ghost var st0 := St();
      var found := h.resolve(Key(from, req));
      Unchanged(h, st0, u);
      if found.None? { return EntryUnresolved; }
      var entry := found.value;
      var queue := [LoadFile(entry, true)];
      Started(h, st0, u, entry);
      ghost var ks := Keys(h, st0, u);
      while queue != []
        invariant Running(h, st0, St(), u, entry, queue) && Extends(h, st0, St(), u)
        decreases Unparsed(files, u), ks - resolved.Keys, Unflagged(resolved, ks), Weight(queue)
      {
        var job := queue[|queue| - 1];
        ghost var st, q, st', q' := St(), queue[..|queue| - 1], St(), queue;
        assert queue == q + [job];
        queue := queue[..|queue| - 1];
        match job {
          case LoadFile(path, parse) =>
            ghost var d := Binary;
            if path !in files {
              var data := h.load(path);
              if data.None? {
                NotLoaded(h, st0, st, u, entry, q, job);
                return Unloadable(path);
              }
              d := data.value;
              files := files[path := File(data.value, None)];
            }
            if parse { queue := queue + [ParseFile(path)]; }
            st', q' := LoadStep(h, st0, st, u, entry, q, job, d);
          case ParseFile(path) =>
            st', q' := ParseStep(h, st0, st, u, entry, q, path);
            if path in files && files[path].parsed.None? {
              var parsed := Parse(h, files[path].data);
              files := files[path := files[path].(parsed := parsed)];
              if parsed.Some? {
                var i := 0;
                while i < |parsed.value|
                  invariant i <= |parsed.value| && queue == q'[..|q| + i] && St() == st'
                {
                  queue := queue + [ResolveImport(path, parsed.value[i])];
                  i := i + 1;
                }
              }
            }
          case ResolveImport(path, imp) =>
            var k := Key(path, imp.req);
            if k in resolved {
              st', q' := UpgradeStep(h, st0, st, u, entry, q, path, imp);
              if imp.expr && !resolved[k].expr {
                resolved := resolved[k := resolved[k].(expr := true)];
                queue := queue + [ParseFile(resolved[k].path)];
              }
            } else {
              var t := h.resolve(k);
              if t.None? {
                NotLinked(h, st0, st, u, entry, q, path, imp);
                return Unresolved(k);
              }
              st', q' := ResolveStep(h, st0, st, u, entry, q, path, imp);
              resolved := resolved[k := Target(t.value, imp.expr)];
              queue := queue + [LoadFile(t.value, imp.expr)];
            }
        }
        assert St() == st' && queue == q';
      }
      Finished(h, st0, St(), u, entry);
      return Done(entry);
    }

    /** The resolver used by the evaluator afterwards; None is where the source panics. */
    method ResolveFrom(from: Path, req: string) returns (r: Option<Path>)
      ensures r == if Key(from, req) in resolved then Some(resolved[Key(from, req)].path) else None
    {
      return if Key(from, req) in resolved then Some(resolved[Key(from, req)].path) else None;
    }
  }

  // ---------------------------------------------------------------- evaluation after loading

  /** Where a chain of imports leads, each written in the file the one before it leads to. */
  ghost function Walk(st: Store, p: Path, chain: seq<Import>): Option<Path>
    decreases |chain|
  {
    if chain == [] then Some(p)
    else if Parsed(st, p) && chain[0] in st.files[p].parsed.value && Key(p, chain[0].req) in st.resolved then
      Walk(st, st.resolved[Key(p, chain[0].req)].path, chain[1..])
    else None
  }

  /** The first import of `chain` that the evaluator asks for in vain. */
  ghost predicate Misses(st: Store, p: Path, chain: seq<Import>)
    decreases |chain|
  {
    chain != [] && Parsed(st, p) && chain[0] in st.files[p].parsed.value
    && (Key(p, chain[0].req) in st.resolved ==> Misses(st, st.resolved[Key(p, chain[0].req)].path, chain[1..]))
  }

  /** In a closed store no chain of imports misses, and it ends in a loaded file: one that is parsed, or
      does not parse, if its last import is an expression. */
  lemma {:induction false} NoMiss(h: Host, st: Store, p: Path, chain: seq<Import>)
    requires Closed(h, st) && p in st.files
    ensures !Misses(st, p, chain)
    ensures Walk(st, p, chain).Some? ==> Walk(st, p, chain).value in st.files
    ensures Walk(st, p, chain).Some? && chain != [] && chain[|chain| - 1].expr ==>
              Settled(h, st, Walk(st, p, chain).value)
    decreases |chain|
  {
    if chain != [] && Parsed(st, p) && chain[0] in st.files[p].parsed.value {
      assert Link(st, p, chain[0]);
      NoMiss(h, st, st.resolved[Key(p, chain[0].req)].path, chain[1..]);
    }
  }

  // ---------------------------------------------------------------- what the parser finds

  /** The parser finds the import `imp` in the text of the loaded file `p`. */
  ghost predicate Finds(h: Host, st: Store, p: Path, imp: Import) {
    && p in st.files && st.files[p].data.Text?
    && h.parse(st.files[p].data.s).Some? && imp in h.parse(st.files[p].data.s).value
  }

  /** What files remember of the parser's answers is what it answers. */
  ghost predicate Faithful(h: Host, st: Store) {
    forall p :: p in st.files && st.files[p].parsed.Some? ==>
      st.files[p].data.Text? && h.parse(st.files[p].data.s) == st.files[p].parsed
  }

  lemma StaysFaithful(h: Host, st0: Store, st: Store, u: set<Path>)
    requires Extends(h, st0, st, u) && Faithful(h, st0)
    ensures Faithful(h, st)
  {
    hide Keys;
    forall p | p in st.files && st.files[p].parsed.Some?
      ensures st.files[p].data.Text? && h.parse(st.files[p].data.s) == st.files[p].parsed
    {
      if Parsed(st0, p) { assert p in st0.files && st0.files[p].parsed.Some?; }
    }
  }

  /** Expression imports, each found by the parser in the file the one before it leads to, and after
      them an import the parser finds but the table does not have. */
  ghost predicate Lost(h: Host, st: Store, p: Path, chain: seq<Import>)
    decreases |chain|
  {
    chain != [] && Finds(h, st, p, chain[0])
    && (Key(p, chain[0].req) in st.resolved ==>
          |chain| > 1 && chain[0].expr && Lost(h, st, st.resolved[Key(p, chain[0].req)].path, chain[1..]))
  }

  lemma {:induction false} NothingLost(h: Host, st: Store, p: Path, chain: seq<Import>)
    requires Closed(h, st) && Faithful(h, st) && Settled(h, st, p)
    ensures !Lost(h, st, p, chain)
    decreases |chain|
  {
    if chain != [] && Finds(h, st, p, chain[0]) {
      assert Parsed(st, p) && chain[0] in st.files[p].parsed.value;
      assert Link(st, p, chain[0]);
      if chain[0].expr { NothingLost(h, st, st.resolved[Key(p, chain[0].req)].path, chain[1..]); }
    }
  }

  /** A successful run from a closed store: every import the parser finds in a file that evaluation can
      reach is in the table. */
  method ImportAll(m: Importer, h: Host, from: Path, req: string, ghost u: set<Path>) returns (r: Outcome)
    requires Closed(h, m.St()) && Faithful(h, m.St()) && Covers(h, m.St(), u)
    requires h.resolve(Key(from, req)).Some? ==> h.resolve(Key(from, req)).value in u
    modifies m
    ensures Faithful(h, m.St())
    ensures r.Done? ==> Closed(h, m.St()) && h.resolve(Key(from, req)) == Some(r.entry) && r.entry in m.files
    ensures r.Done? ==> forall chain :: !Lost(h, m.St(), r.entry, chain)
  {
    hide Extends, Covers, Linked, Loaded, Lost, Faithful;
    ghost var st0 := m.St();
    r := m.AsyncImport(h, from, req, u);
    StaysFaithful(h, st0, m.St(), u);
    if r.Done? {
      forall chain ensures !Lost(h, m.St(), r.entry, chain) { NothingLost(h, m.St(), r.entry, chain); }
    }
  }

  function ParseSample(text: string): Option<seq<Import>> {
    if text == "import 'b'" then Some([Import("b", true)]) else Some([])
  }

  function LoadSample(p: Path): Option<Data> {
    if p == "a" then Some(Text("import 'b'")) else Some(Text("1"))
  }

  /** File `a` imports `b`, which a failing resolver does not find. */
  function Down(): Host {
    Host((k: Key) => if k.req == "a" then Some("a") else None, LoadSample, ParseSample)
  }

  function Up(): Host {
    Host((k: Key) => Some(k.req), LoadSample, ParseSample)
  }

  lemma FirstRun(st: Store, r: Outcome)
    requires Extends(Down(), Store(map[], map[]), st, {"a"})
    requires !r.EntryUnresolved? && !r.Unloadable?
    requires r.Done? ==> r.entry == "a" && Settled(Down(), st, "a") && Linked(st)
    requires r.Unresolved? ==> Down().resolve(r.at).None? && Dangling(st, r.at)
    ensures r == Unresolved(Key("a", "b")) && Key("a", "b") !in st.resolved
    ensures st.files.Keys == {"a"} && st.files["a"].parsed == Some([Import("b", true)])
  {
    assert forall p :: p in st.files ==> p == "a";
    assert Down().resolve(Key("a", "b")).None? && Key("a", "b") !in st.resolved;
    assert !Link(st, "a", Import("b", true));
  }

  /** A store that misses somewhere is not closed, so a run from a closed store ends in one only if it
      fails. Later runs then succeed without repairing it: a parsed file is not visited again. */
  method RetryMisses() returns (m: Importer, first: Outcome, second: Outcome)
    ensures first == Unresolved(Key("a", "b")) && second == Done("a")
    ensures Misses(m.St(), "a", [Import("b", true)])
  {
    m := new Importer();
    first := m.AsyncImport(Down(), "", "a", {"a"});
    FirstRun(m.St(), first);
    second := m.AsyncImport(Up(), "", "a", {"a", "b"});
  }
}
