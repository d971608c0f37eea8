/** Nested scopes: what a name means in them, which alias the model attribute finds for it, and
    the tables it builds to find it. */
module Scoping {

  import opened Options
  import opened RustSyntax
  import opened UseAliases
  import opened ModelResolution

  // ---------- what a name means ----------

  /** The `use` trees of one scope and the names its items declare. Scopes are listed from the
      outside in. */
  datatype Scope = Scope(uses: seq<UseTree>, declared: seq<Ident>)

  /** The last path a scope's `use` trees give `x`, in whatever crate. */
  function LastUse(leaves: seq<Leaf>, x: Ident): Option<seq<Ident>> {
    if leaves == [] then None
    else if leaves[|leaves| - 1].binding == x then Some(leaves[|leaves| - 1].canonical)
    else LastUse(leaves[..|leaves| - 1], x)
  }

  function UsedAs(scope: Scope, x: Ident): Option<seq<Ident>> {
    LastUse(GroupLeaves(scope.uses, []), x)
  }

  predicate Introduces(scope: Scope, x: Ident) {
    x in scope.declared || UsedAs(scope, x).Some?
  }

  /** The scope takes the name for something that is not tokio's. */
  predicate Hides(scope: Scope, x: Ident) {
    x in scope.declared || (UsedAs(scope, x).Some? && !TokioRooted(UsedAs(scope, x).value))
  }

  /** Lexical scoping: the innermost scope that declares or binds `x` decides; the name stands
      for a tokio path if that scope binds it to one. */
  function RustMeaning(scopes: seq<Scope>, x: Ident): Option<seq<Ident>> {
    if scopes == [] then None
    else
      var inner := scopes[|scopes| - 1];
      if Hides(inner, x) then None
      else if Introduces(inner, x) then UsedAs(inner, x)
      else RustMeaning(scopes[..|scopes| - 1], x)
  }

  function RustNames(scopes: seq<Scope>): Naming {
    x => RustMeaning(scopes, x)
  }

  // ---------- the alias that is found for it ----------

  /** The last tokio path a scope's `use` trees give `x`. */
  function LastBound(leaves: seq<Leaf>, x: Ident): Option<seq<Ident>> {
    if leaves == [] then None
    else if Binds(leaves, x, |leaves| - 1) then Some(leaves[|leaves| - 1].canonical)
    else LastBound(leaves[..|leaves| - 1], x)
  }

  /** The innermost scope with a tokio binding of `x` that no item of it shadows. */
  function AliasOf(scopes: seq<Scope>, x: Ident): Option<seq<Ident>> {
    if scopes == [] then None
    else
      var inner := scopes[|scopes| - 1];
      var bound := LastBound(GroupLeaves(inner.uses, []), x);
      if x !in inner.declared && bound.Some? then bound else AliasOf(scopes[..|scopes| - 1], x)
  }

  function AliasNames(scopes: seq<Scope>): Naming {
    x => AliasOf(scopes, x)
  }

  /** The innermost scope that mentions `x` does not hide it while an alias of it is in force. */
  predicate Unhidden(scopes: seq<Scope>, x: Ident) {
    if scopes == [] then true
    else
      var inner := scopes[|scopes| - 1];
      if Hides(inner, x) then AliasOf(scopes, x) == None
      else Introduces(inner, x) || Unhidden(scopes[..|scopes| - 1], x)
  }

  lemma {:induction false} LastUseIsBound(leaves: seq<Leaf>, x: Ident)
    ensures LastUse(leaves, x).None? ==> LastBound(leaves, x).None?
    ensures LastUse(leaves, x).Some? && TokioRooted(LastUse(leaves, x).value) ==>
              LastBound(leaves, x) == LastUse(leaves, x)
    decreases |leaves|
  {
    if leaves != [] {
      LastUseIsBound(leaves[..|leaves| - 1], x);
    }
  }

  /** The exact condition for the alias to be what the name means. */
  lemma {:induction false} AliasIsMeaning(scopes: seq<Scope>, x: Ident)
    ensures AliasOf(scopes, x) == RustMeaning(scopes, x) <==> Unhidden(scopes, x)
    decreases |scopes|
  {
    if scopes != [] {
      LastUseIsBound(GroupLeaves(scopes[|scopes| - 1].uses, []), x);
      AliasIsMeaning(scopes[..|scopes| - 1], x);
    }
  }

  // ---------- the tables ----------

  /** The aliases a scope's own `use` trees bind, without the names its items declare. */
  function OwnAliases(trees: seq<UseTree>, declared: seq<Ident>): Table {
    InsertAll(map[], GroupLeaves(trees, [])) - (set x | x in declared)
  }

  /** An inner scope sees the enclosing aliases, overlaid with its own. */
  function ScopeTable(base: Table, trees: seq<UseTree>, declared: seq<Ident>): Table {
    base + OwnAliases(trees, declared)
  }

  /** Takes out the names a scope's items declare. */
  method RemoveShadowedAliases(table: Table, declared: seq<Ident>) returns (left: Table)
    ensures forall x :: x in left <==> x in table && x !in declared
    ensures forall x :: x in left ==> left[x] == table[x]
  {
    left := table;
    for i := 0 to |declared|
      invariant forall x :: x in left <==> x in table && x !in declared[..i]
      invariant forall x :: x in left ==> left[x] == table[x]
    {
      left := left - {declared[i]};
    }
  }

  /** The scan of a scope's `use` declarations and item names. */
  method ScanUseAliases(trees: seq<UseTree>, declared: seq<Ident>) returns (table: Table)
    ensures table == OwnAliases(trees, declared)
  {
    var collector := new Collector(map[]);
    for i := 0 to |trees|
      invariant collector.prefix == []
      invariant collector.table == InsertAll(map[], GroupLeaves(trees[..i], []))
    {
      assert trees[..i + 1][..i] == trees[..i];
      collector.Collect(trees[i]);
      InsertAllConcat(map[], GroupLeaves(trees[..i], []), Leaves(trees[i], []));
    }
    assert trees[..|trees|] == trees;
    table := RemoveShadowedAliases(collector.table, declared);
  }

  method MergeAliases(base: Table, overlay: Table) returns (merged: Table)
    ensures forall x :: x in merged <==> x in base || x in overlay
    ensures forall x :: x in overlay ==> merged[x] == overlay[x]
    ensures forall x :: x in base && x !in overlay ==> merged[x] == base[x]
  {
    merged := base + overlay;
  }

  lemma {:induction false} BoundHasLast(leaves: seq<Leaf>, x: Ident, i: int)
    requires Binds(leaves, x, i)
    ensures exists j :: LastBinding(leaves, x, j)
    decreases |leaves| - i
  {
    if j :| i < j && Binds(leaves, x, j) {
      BoundHasLast(leaves, x, j);
    } else {
      assert LastBinding(leaves, x, i);
    }
  }

  /** What a name means in a scope: the last tokio binding of it there, unless an item of the
      scope declares it; otherwise whatever the enclosing scope says. One of the two always
      applies. So an item takes away only its own scope's alias, and the enclosing one shows
      through. */
  lemma ScopeLookup(base: Table, trees: seq<UseTree>, declared: seq<Ident>, x: Ident)
    ensures var t, leaves := ScopeTable(base, trees, declared), GroupLeaves(trees, []);
            && (x !in declared ==> forall i :: LastBinding(leaves, x, i) ==> x in t && t[x] == leaves[i].canonical)
            && (x in declared || (forall i :: !Binds(leaves, x, i)) ==>
                  (x in t <==> x in base) && (x in t ==> t[x] == base[x]))
            && (x in declared || (forall i :: !Binds(leaves, x, i)) || exists i :: LastBinding(leaves, x, i))
  {
    var leaves := GroupLeaves(trees, []);
    forall i | LastBinding(leaves, x, i)
      ensures x in InsertAll(map[], leaves) && InsertAll(map[], leaves)[x] == leaves[i].canonical
    {
      LastBindingWins(map[], leaves, x, i);
    }
    if i :| Binds(leaves, x, i) {
      BoundHasLast(leaves, x, i);
    } else {
      UnboundKeepsEntry(map[], leaves, x);
    }
  }

  /** A `use` tree of any other crate, however it groups and renames, adds no alias. */
  lemma OtherCrateAddsNothing(base: Table, crate_: Ident, rest: UseTree, declared: seq<Ident>)
    requires crate_ != tokio
    ensures ScopeTable(base, [UsePath(crate_, rest)], declared) == base
  {
    var tree := UsePath(crate_, rest);
    LeavesBelow(rest, [] + [crate_]);
    assert [tree][..0] == [] && GroupLeaves([tree], []) == [] + Leaves(tree, []);
    NoneTokioAddsNothing(map[], GroupLeaves([tree], []));
  }

  // ---------- the tables hold the aliases ----------

  lemma {:induction false} InsertedIsLastBound(leaves: seq<Leaf>, x: Ident)
    ensures LastBound(leaves, x) == Lookup(InsertAll(map[], leaves), x)
    decreases |leaves|
  {
    if leaves != [] {
      InsertedIsLastBound(leaves[..|leaves| - 1], x);
    }
  }

  /** Going into a scope: the table of the aliases outside becomes that of the aliases inside. */
  lemma ScopeTableFollows(base: Table, scopes: seq<Scope>, scope: Scope)
    requires Follows(base, AliasNames(scopes))
    ensures Follows(ScopeTable(base, scope.uses, scope.declared), AliasNames(scopes + [scope]))
  {
    var t := ScopeTable(base, scope.uses, scope.declared);
    assert (scopes + [scope])[..|scopes|] == scopes;
    forall x
      ensures AliasOf(scopes + [scope], x) == Lookup(t, x)
    {
      InsertedIsLastBound(GroupLeaves(scope.uses, []), x);
      assert AliasOf(scopes, x) == AliasNames(scopes)(x);
    }
  }

  lemma ScopeTableKeepsTokio(base: Table, trees: seq<UseTree>, declared: seq<Ident>)
    requires AllTokio(base)
    ensures AllTokio(ScopeTable(base, trees, declared))
  {
    InsertKeepsTokio(map[], GroupLeaves(trees, []));
  }

  // ---------- scopes whose declarations are emptied ----------

  /** A `use` declaration, kept or emptied. */
  function KeptTree(keep: bool, tree: UseTree): UseTree {
    if keep then tree else UseGroup([])
  }

  function KeptTrees(keep: bool, trees: seq<UseTree>): seq<UseTree> {
    seq(|trees|, i requires 0 <= i < |trees| => KeptTree(keep, trees[i]))
  }

  lemma KeptTreesConcat(keep: bool, a: seq<UseTree>, b: seq<UseTree>)
    ensures KeptTrees(keep, a + b) == KeptTrees(keep, a) + KeptTrees(keep, b)
  {
  }

  lemma {:induction false} EmptiedBindNothing(trees: seq<UseTree>)
    ensures GroupLeaves(KeptTrees(false, trees), []) == []
    decreases |trees|
  {
    if trees != [] {
      var n, kept := |trees| - 1, KeptTrees(false, trees);
      EmptiedBindNothing(trees[..n]);
      assert kept[..n] == KeptTrees(false, trees[..n]);
    }
  }

  /** The qualified form of a scope sees the target's aliases. */
  lemma TargetScope(base: Table, keep: bool, trees: seq<UseTree>, declared: seq<Ident>)
    ensures ScopeTable(Target(base, keep), KeptTrees(keep, trees), declared) ==
            Target(ScopeTable(base, trees, declared), keep)
  {
    if keep {
      assert KeptTrees(keep, trees) == trees;
    } else {
      EmptiedBindNothing(trees);
    }
  }

}
