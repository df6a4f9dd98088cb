/** When evaluating loop-invariant sources ahead of the loop is observable. */
module EarlySources {
  import opened Options
  import opened Syntax
  import opened Resolution
  import opened ByName
  import opened Weakening
  import opened Packed
  import opened Correspondence
  import opened Simulation

  ghost predicate IsArray(v: Outcome<Val>) { v.Ok? && v.v.VArr? }

  ghost predicate Early(lc: LExpr, j: nat)
    requires lc.LComp? && j < |lc.specs|
  {
    lc.specs[j].LFor? && lc.specs[j].inv
  }

  /** Running source `j` ahead of its loop stops on a source that it evaluates early itself. */
  ghost predicate NestedStop(fuel: nat, h: Heap, ctx: Ctx, lc: LExpr, j: nat)
    requires lc.LComp? && j < |lc.specs| && Early(lc, j)
  {
    Exec(fuel, CacheOvers(fuel, h, ctx, lc, j).h, ctx, lc.specs[j].over).out.Hoisted?
  }

  /** Source `j` comes to an array, by name and ahead of the loop alike. */
  ghost predicate Passes(fuel: nat, h: Heap, ctx: Ctx, lc: LExpr, env: Env, c: Expr, j: nat)
    requires c.Comp? && lc.LComp? && |lc.specs| == |c.specs| && j < |c.specs| && c.specs[j].For? && Early(lc, j)
  {
    !NestedStop(fuel, h, ctx, lc, j) && IsArray(Eval(false, fuel, env, c.specs[j].over))
  }

  ghost predicate AllPass(fuel: nat, h: Heap, ctx: Ctx, lc: LExpr, env: Env, c: Expr, k: nat)
    requires c.Comp? && lc.LComp? && |lc.specs| == |c.specs| && k <= |c.specs|
  {
    forall j :: 0 <= j < k && Early(lc, j) ==> c.specs[j].For? && Passes(fuel, h, ctx, lc, env, c, j)
  }

  /** The first source that does not come to an array is `j`, and it is not the very first source, or it
      stops inside. */
  ghost predicate StopsAt(fuel: nat, h: Heap, ctx: Ctx, lc: LExpr, env: Env, c: Expr, j: nat)
    requires c.Comp? && lc.LComp? && |lc.specs| == |c.specs| && j < |c.specs|
  {
    && Early(lc, j) && c.specs[j].For? && AllPass(fuel, h, ctx, lc, env, c, j)
    && (NestedStop(fuel, h, ctx, lc, j) || (j > 0 && !IsArray(Eval(false, fuel, env, c.specs[j].over))))
  }

  /** The run of one source, once the ones before it have come to arrays. */
  lemma OneSource(fuel: nat, h: Heap, W: Typing, L: Link, ctx: Ctx, lc: LExpr, env: Env, c: Expr, j: nat)
    requires c.Comp? && Ready(h, W, L, ctx, lc, env, c) && j < |c.specs|
    requires lc.LComp? && |lc.specs| == |c.specs| && CacheOvers(fuel, h, ctx, lc, j).out.LOk? && Early(lc, j)
    ensures var out := Exec(fuel, CacheOvers(fuel, h, ctx, lc, j).h, ctx, lc.specs[j].over).out;
            && c.specs[j].For? && !out.Panic?
            && (!out.Hoisted? ==> (IsArray(Eval(false, fuel, env, c.specs[j].over)) <==> out.LOk? && Elements(out.v).Some?))
  {
    hide Exec, Eval, HeapOk, CtxRel, Res, RelV, CacheOvers, FV;
    var W1 := SimCache(fuel, h, W, L, ctx, lc, env, c, j);
    var r := CacheOvers(fuel, h, ctx, lc, j);
    GrowCtx(W, W1, L, ctx, env);
    var W2 := SimHoisted(fuel, r.h, W1, L, ctx, lc, env, c, j);
    var over := c.specs[j].over;
    EnvRefl(env, FV(over));
    TrimSim(env, env, over);
    EvalSim(fuel, env, Trim(env, over), over);
    var out, v := Exec(fuel, r.h, ctx, lc.specs[j].over).out, Eval(true, fuel, Trim(env, over), over);
    if out.LOk? { ElementsRel(W2, out.v, v.v); }
  }

  ghost predicate StopsBefore(fuel: nat, h: Heap, ctx: Ctx, lc: LExpr, env: Env, c: Expr, k: nat)
    requires c.Comp? && lc.LComp? && |lc.specs| == |c.specs| && k <= |c.specs|
  {
    exists j :: 0 <= j < k && StopsAt(fuel, h, ctx, lc, env, c, j)
  }

  /** The sources evaluated ahead come to arrays exactly when each passes, and the run stops early exactly
      when there is a source that stops it. */
  lemma {:induction false} StopsExactly(fuel: nat, h: Heap, W: Typing, L: Link, ctx: Ctx, lc: LExpr, env: Env, c: Expr, k: nat)
    requires c.Comp? && Ready(h, W, L, ctx, lc, env, c) && k <= |c.specs|
    ensures lc.LComp? && |lc.specs| == |c.specs|
    ensures CacheOvers(fuel, h, ctx, lc, k).out.LOk? <==> AllPass(fuel, h, ctx, lc, env, c, k)
    ensures CacheOvers(fuel, h, ctx, lc, k).out.Hoisted? <==> StopsBefore(fuel, h, ctx, lc, env, c, k)
    decreases k
  {
    hide *;
    CompLengths(h, W, L, ctx, lc, env, c);
    if k == 0 {
      NoSource(fuel, h, ctx, lc, env, c);
    } else {
      StopsExactly(fuel, h, W, L, ctx, lc, env, c, k - 1);
      OneMore(fuel, h, ctx, lc, env, c, k - 1);
      if CacheOvers(fuel, h, ctx, lc, k - 1).out.LOk? {
        LastSource(fuel, h, W, L, ctx, lc, env, c, k - 1);
      } else {
        LaterPass(fuel, h, ctx, lc, env, c, k - 1);
      }
    }
  }

  lemma OneMore(fuel: nat, h: Heap, ctx: Ctx, lc: LExpr, env: Env, c: Expr, k: nat)
    requires c.Comp? && lc.LComp? && |lc.specs| == |c.specs| && k < |c.specs|
    ensures StopsBefore(fuel, h, ctx, lc, env, c, k + 1)
            <==> StopsBefore(fuel, h, ctx, lc, env, c, k) || StopsAt(fuel, h, ctx, lc, env, c, k)
    ensures AllPass(fuel, h, ctx, lc, env, c, k) ==> !StopsBefore(fuel, h, ctx, lc, env, c, k)
  {
    hide StopsAt;
    if AllPass(fuel, h, ctx, lc, env, c, k) { NoneBefore(fuel, h, ctx, lc, env, c, k); }
  }

  lemma LastSource(fuel: nat, h: Heap, W: Typing, L: Link, ctx: Ctx, lc: LExpr, env: Env, c: Expr, k: nat)
    requires c.Comp? && Ready(h, W, L, ctx, lc, env, c) && k < |c.specs| && lc.LComp? && |lc.specs| == |c.specs|
    requires CacheOvers(fuel, h, ctx, lc, k).out.LOk? && AllPass(fuel, h, ctx, lc, env, c, k)
    ensures CacheOvers(fuel, h, ctx, lc, k + 1).out.LOk? <==> AllPass(fuel, h, ctx, lc, env, c, k + 1)
    ensures CacheOvers(fuel, h, ctx, lc, k + 1).out.Hoisted? <==> StopsAt(fuel, h, ctx, lc, env, c, k)
  {
    hide Exec, Eval, Ready;
    if Early(lc, k) { OneSource(fuel, h, W, L, ctx, lc, env, c, k); }
  }

  /** While every source passes, nothing has stopped. */
  lemma NoneBefore(fuel: nat, h: Heap, ctx: Ctx, lc: LExpr, env: Env, c: Expr, k: nat)
    requires c.Comp? && lc.LComp? && |lc.specs| == |c.specs| && k <= |c.specs| && AllPass(fuel, h, ctx, lc, env, c, k)
    ensures forall j :: 0 <= j < k ==> !StopsAt(fuel, h, ctx, lc, env, c, j)
  {
    hide Eval;
  }

  lemma LaterPass(fuel: nat, h: Heap, ctx: Ctx, lc: LExpr, env: Env, c: Expr, k: nat)
    requires c.Comp? && lc.LComp? && |lc.specs| == |c.specs| && k < |c.specs| && !AllPass(fuel, h, ctx, lc, env, c, k)
    ensures !AllPass(fuel, h, ctx, lc, env, c, k + 1) && !StopsAt(fuel, h, ctx, lc, env, c, k)
    ensures !CacheOvers(fuel, h, ctx, lc, k).out.LOk? ==>
              CacheOvers(fuel, h, ctx, lc, k + 1) == CacheOvers(fuel, h, ctx, lc, k)
  {
    hide Eval, Exec;
  }

  lemma NoSource(fuel: nat, h: Heap, ctx: Ctx, lc: LExpr, env: Env, c: Expr)
    requires c.Comp? && lc.LComp? && |lc.specs| == |c.specs|
    ensures CacheOvers(fuel, h, ctx, lc, 0).out.LOk? && AllPass(fuel, h, ctx, lc, env, c, 0)
    ensures !StopsBefore(fuel, h, ctx, lc, env, c, 0)
  {}
}
