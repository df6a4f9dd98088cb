/** What importing a file gives when the analyzer behind the cache keeps its contract: code that
    resolves the file's own text under the externals of this very import. */
module ImportedPrograms {
  import opened Options
  import opened Syntax
  import opened Resolution
  import opened Programs
  import PI = PreparedImports

  function Named(externals: PI.Externals): (r: seq<string>)
    ensures |r| == |externals| && forall i :: 0 <= i < |r| ==> r[i] == externals[i].0
  {
    seq(|externals|, i requires 0 <= i < |externals| => externals[i].0)
  }

  /** Externals take the first slots in the order they are bound in. */
  predicate InSlotOrder(externals: PI.Externals) {
    forall i :: 0 <= i < |externals| ==> externals[i].1 == i
  }

  /** The program `e` has no static error when the names of `externals` are bound. */
  ghost predicate WellFormed(e: Expr, externals: PI.Externals) { WF(e, NameSet(Idents(Named(externals)))) }

  /** `front` analyses as `Programs.AnalyzeRoot` does. */
  ghost predicate Analyses(front: PI.Front<Expr, LExpr>) {
    forall e, xs :: InSlotOrder(xs) ==>
      && (front.analyze(e, xs).Some? <==> WellFormed(e, xs))
      && (front.analyze(e, xs).Some? ==> Compiled(e, front.analyze(e, xs).value, Named(xs)))
  }

  /** What the text of a file makes of an import. */
  ghost predicate Imports(front: PI.Front<Expr, LExpr>, path: PI.Path, text: string, externals: PI.Externals, r: PI.Result<LExpr>) {
    match front.parse(path, text)
    case None => r == PI.Err(PI.SyntaxError)
    case Some(e) =>
      if WellFormed(e, externals) then r.Ok? && Compiled(e, r.v, Named(externals)) else r == PI.Err(PI.AnalysisError)
  }

  lemma LowerImports(front: PI.Front<Expr, LExpr>, path: PI.Path, text: string, externals: PI.Externals)
    requires Analyses(front) && InSlotOrder(externals)
    ensures Imports(front, path, text, externals, front.Lower(path, text, externals))
  {
    hide WellFormed, Compiled;
  }

  /** Importing a file, whatever the state and the cache shared with other states remember of it: it
      succeeds exactly when the text parses and the program is well formed under the names of the
      externals, and what it gives is then compiled for that program and those externals. */
  method PrepareProgram(state: PI.State<Expr, LExpr>, path: PI.Path, loaded: Option<Option<string>>, externals: PI.Externals)
    returns (r: PI.Result<LExpr>)
    requires state.Valid() && Analyses(state.front) && InSlotOrder(externals)
    modifies state, state.cache
    ensures state.Valid()
    ensures path in old(state.files) && old(state.files[path].code.Some?) ==>
              Imports(state.front, path, old(state.files[path].code.value), externals, r)
    ensures path in old(state.files) && old(state.files[path].code.None?) ==> r == PI.Err(PI.BadUtf8)
    ensures path !in old(state.files) ==>
              match loaded
              case None => r == PI.Err(PI.NotLoaded)
              case Some(None) => r == PI.Err(PI.BadUtf8)
              case Some(Some(text)) => Imports(state.front, path, text, externals, r)
  {
    hide Imports, Analyses, PI.Front.Lower;
    r := state.Prepare(path, loaded, externals);
    if path in state.files && state.files[path].code.Some? {
      LowerImports(state.front, path, state.files[path].code.value, externals);
    }
  }
}
