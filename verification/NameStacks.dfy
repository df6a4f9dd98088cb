/** Locals in scope, the stacks of ids their names map to, and the scope these amount to. */
module NameStacks {
  import opened Options
  import opened Syntax
  import opened Resolution
  import S = Siblings

  /** `name` is `None` for the pseudo-local that stands for an object. */
  datatype LocalDef = LocalDef(name: Option<string>, depth: nat, analysis: S.Analysis, analyzed: bool, scratch: bool)

  /** A value given from outside, such as the standard library. */
  function ExternalDef(x: string): LocalDef { LocalDef(Some(x), 0, S.Nothing, true, false) }

  function ExternalDefs(xs: seq<string>): (r: seq<LocalDef>)
    ensures |r| == |xs| && forall i :: 0 <= i < |xs| ==> r[i] == ExternalDef(xs[i])
  {
    seq(|xs|, i requires 0 <= i < |xs| => ExternalDef(xs[i]))
  }

  function Push(m: map<string, seq<nat>>, x: string, id: nat): map<string, seq<nat>> {
    m[x := (if x in m then m[x] else []) + [id]]
  }

  /** Drops the innermost id of a name, and the name with its last id. */
  function Pop(m: map<string, seq<nat>>, x: string): map<string, seq<nat>>
    requires x in m && m[x] != []
  {
    if |m[x]| == 1 then m - {x} else m[x := m[x][..|m[x]| - 1]]
  }

  lemma PopPush(m: map<string, seq<nat>>, x: string, id: nat)
    requires x in m ==> m[x] != []
    ensures Pop(Push(m, x, id), x) == m
  {
    if x in m {
      assert Push(m, x, id)[x][..|m[x]|] == m[x];
    }
  }

  /** The name stacks that belong to a list of locals. */
  ghost function NameMap(defs: seq<LocalDef>): map<string, seq<nat>> {
    if defs == [] then map[]
    else
      var m, d := NameMap(defs[..|defs| - 1]), defs[|defs| - 1];
      if d.name.Some? then Push(m, d.name.value, |defs| - 1) else m
  }

  ghost function NamesPart(defs: seq<LocalDef>): map<Name, nat> {
    if defs == [] then map[]
    else
      var m, d := NamesPart(defs[..|defs| - 1]), defs[|defs| - 1];
      if d.name.Some? then m[Id(d.name.value) := |defs| - 1] else m
  }

  lemma NewName(defs: seq<LocalDef>, d: LocalDef)
    requires d.name.Some?
    ensures NameMap(defs + [d]) == Push(NameMap(defs), d.name.value, |defs|)
  {
    assert (defs + [d])[..|defs|] == defs;
  }

  ghost predicate Increasing(xs: seq<nat>) {
    forall i, j :: 0 <= i < j < |xs| ==> xs[i] < xs[j]
  }

  /** Each name's stack is the increasing list of its live ids, the innermost last. */
  lemma {:induction false} StacksOf(defs: seq<LocalDef>, x: string)
    ensures x in NameMap(defs) <==> Id(x) in NamesPart(defs)
    ensures x in NameMap(defs) ==>
              var ids := NameMap(defs)[x];
              ids != [] && ids[|ids| - 1] == NamesPart(defs)[Id(x)] && Increasing(ids)
    ensures x in NameMap(defs) ==>
              forall id: nat :: id in NameMap(defs)[x] <==> id < |defs| && defs[id].name == Some(x)
    ensures x !in NameMap(defs) ==> forall id :: 0 <= id < |defs| ==> defs[id].name != Some(x)
    decreases |defs|
  {
    if defs != [] {
      var init := defs[..|defs| - 1];
      StacksOf(init, x);
      assert forall id :: 0 <= id < |init| ==> init[id] == defs[id];
      if x in NameMap(init) {
        var ids := NameMap(init)[x];
        forall i | 0 <= i < |ids| ensures ids[i] < |init| { assert ids[i] in ids; }
      }
    }
  }

  lemma {:induction false} OnlyNames(defs: seq<LocalDef>, n: Name)
    requires n in NamesPart(defs)
    ensures n.Id? && NamesPart(defs)[n] < |defs|
    decreases |defs|
  {
    if n in NamesPart(defs[..|defs| - 1]) { OnlyNames(defs[..|defs| - 1], n); }
  }

  /** Same locals, up to what has been found out about their values. */
  ghost predicate SameDefs(ds: seq<LocalDef>, es: seq<LocalDef>) {
    |es| == |ds| && forall i :: 0 <= i < |ds| ==> es[i].name == ds[i].name && es[i].depth == ds[i].depth
  }

  lemma {:induction false} SameNames(ds: seq<LocalDef>, es: seq<LocalDef>)
    requires SameDefs(ds, es)
    ensures NameMap(es) == NameMap(ds) && NamesPart(es) == NamesPart(ds)
    decreases |ds|
  {
    if ds != [] { SameNames(ds[..|ds| - 1], es[..|es| - 1]); }
  }

  ghost function ScopeOf(defs: seq<LocalDef>, self: Option<nat>, dollar: Option<nat>): Scope {
    var m0 := NamesPart(defs);
    var m1 := if self.Some? then m0[Self := self.value][Super := self.value] else m0;
    Scope(if dollar.Some? then m1[Dollar := dollar.value] else m1, |defs|)
  }

  lemma BindOne(defs: seq<LocalDef>, d: LocalDef, self: Option<nat>, dollar: Option<nat>)
    requires d.name.Some?
    ensures ScopeOf(defs + [d], self, dollar) == Bind1(ScopeOf(defs, self, dollar), Id(d.name.value))
  {
    assert (defs + [d])[..|defs|] == defs;
  }

  lemma BindObject(defs: seq<LocalDef>, d: LocalDef, self: Option<nat>, dollar: Option<nat>)
    requires d.name.None?
    ensures ScopeOf(defs + [d], Some(|defs|), if dollar.Some? then dollar else Some(|defs|))
            == SelfScope(ScopeOf(defs, self, dollar))
  {
    assert (defs + [d])[..|defs|] == defs;
    forall n | n in NamesPart(defs) ensures n.Id? { OnlyNames(defs, n); }
    var a := ScopeOf(defs + [d], Some(|defs|), if dollar.Some? then dollar else Some(|defs|));
    var b := SelfScope(ScopeOf(defs, self, dollar));
    assert a.ids == b.ids;
  }
}
