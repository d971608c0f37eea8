/** Which tokio names the `use` declarations of a scope bind. */
module UseAliases {

  import opened RustSyntax

  /** Binding name to the full tokio path it stands for. */
  type Table = map<Ident, seq<Ident>>

  datatype Leaf = Leaf(binding: Ident, canonical: seq<Ident>)

  /** The bindings of a use-tree below `prefix`, left to right, whatever crate they come from.
      `self` binds the prefix's own last name; a glob binds nothing known. */
  function Leaves(tree: UseTree, prefix: seq<Ident>): seq<Leaf> {
    match tree
    case UsePath(id, rest) => Leaves(rest, prefix + [id])
    case UseName(id) =>
      if id != selfName then [Leaf(id, prefix + [id])]
      else if prefix == [] then [] else [Leaf(prefix[|prefix| - 1], prefix)]
    case UseRename(id, rename) => [Leaf(rename, prefix + [id])]
    case UseGroup(items) => GroupLeaves(items, prefix)
    case UseGlob => []
  }

  function GroupLeaves(items: seq<UseTree>, prefix: seq<Ident>): seq<Leaf> {
    if items == [] then [] else GroupLeaves(items[..|items| - 1], prefix) + Leaves(items[|items| - 1], prefix)
  }

  predicate TokioRooted(path: seq<Ident>) {
    path != [] && path[0] == tokio
  }

  function Insert(table: Table, leaf: Leaf): Table {
    if TokioRooted(leaf.canonical) then table[leaf.binding := leaf.canonical] else table
  }

  function InsertAll(table: Table, leaves: seq<Leaf>): Table {
    if leaves == [] then table else Insert(InsertAll(table, leaves[..|leaves| - 1]), leaves[|leaves| - 1])
  }

  /** The table with one more binding, if it is of a tokio path. */
  function With(table: Table, binding: Ident, path: seq<Ident>): Table {
    if path != [] && path[0] == tokio then table[binding := path] else table
  }

  /** The walk over a use-tree, with the prefix it pushes on and pops off. */
  class Collector {
    var prefix: seq<Ident>
    var table: Table

    constructor (table: Table)
      ensures prefix == [] && this.table == table
    {
      this.prefix, this.table := [], table;
    }

    /** Restores the prefix and adds exactly the tree's tokio-rooted bindings, in order. */
    method Collect(tree: UseTree)
      modifies this
      ensures prefix == old(prefix)
      ensures table == InsertAll(old(table), Leaves(tree, prefix))
      ensures match tree
              case UseName(id) =>
                table == if id != selfName then With(old(table), id, prefix + [id])
                         else if prefix != [] then With(old(table), prefix[|prefix| - 1], prefix) else old(table)
              case UseRename(id, rename) => table == With(old(table), rename, prefix + [id])
              case UseGlob => table == old(table)
              case _ => true
      decreases tree, 0
    {
      match tree {
        case UsePath(id, rest) =>
          prefix := prefix + [id];
          Collect(rest);
          prefix := prefix[..|prefix| - 1];
        case UseName(id) =>
          if id == selfName {
            if prefix != [] {
              InsertTokioAlias(prefix[|prefix| - 1], prefix);
            }
            return;
          }
          InsertTokioAlias(id, prefix + [id]);
        case UseRename(id, rename) =>
          InsertTokioAlias(rename, prefix + [id]);
        case UseGroup(items) =>
          ghost var start := table;
          for i := 0 to |items|
            invariant prefix == old(prefix)
            invariant table == InsertAll(start, GroupLeaves(items[..i], prefix))
          {
            assert items[..i + 1][..i] == items[..i];
            Collect(items[i]);
            InsertAllConcat(start, GroupLeaves(items[..i], prefix), Leaves(items[i], prefix));
          }
          assert items[..|items|] == items;
        case UseGlob =>
      }
    }

    method InsertTokioAlias(binding: Ident, canonical: seq<Ident>)
      modifies this`table
      ensures table == InsertAll(old(table), [Leaf(binding, canonical)])
      ensures table == With(old(table), binding, canonical)
    {
      InsertOne(table, Leaf(binding, canonical));
      if canonical != [] && canonical[0] == tokio {
        table := table[binding := canonical];
      }
    }
  }

  lemma InsertOne(table: Table, leaf: Leaf)
    ensures InsertAll(table, [leaf]) == Insert(table, leaf)
  {
    assert [leaf][..0] == [];
  }

  lemma {:induction false} InsertAllConcat(table: Table, a: seq<Leaf>, b: seq<Leaf>)
    ensures InsertAll(table, a + b) == InsertAll(InsertAll(table, a), b)
    decreases |b|
  {
    if b == [] {
      assert a + b == a;
    } else {
      var n := |b| - 1;
      assert (a + b)[..|a| + n] == a + b[..n];
      InsertAllConcat(table, a, b[..n]);
    }
  }

  /** Leaf `i` is a tokio-rooted binding of `x`. */
  predicate Binds(leaves: seq<Leaf>, x: Ident, i: int) {
    0 <= i < |leaves| && leaves[i].binding == x && TokioRooted(leaves[i].canonical)
  }

  /** The last such leaf. */
  ghost predicate LastBinding(leaves: seq<Leaf>, x: Ident, i: int) {
    Binds(leaves, x, i) && forall j :: i < j ==> !Binds(leaves, x, j)
  }

  lemma BindsPrefix(leaves: seq<Leaf>, x: Ident)
    requires leaves != []
    ensures forall i :: i < |leaves| - 1 ==> (Binds(leaves[..|leaves| - 1], x, i) <==> Binds(leaves, x, i))
  {
  }

  /** What inserting leaves means: the last tokio-rooted binding of a name wins, */
  lemma {:induction false} LastBindingWins(table: Table, leaves: seq<Leaf>, x: Ident, i: int)
    requires LastBinding(leaves, x, i)
    ensures var t := InsertAll(table, leaves); x in t && t[x] == leaves[i].canonical
    decreases |leaves|
  {
    var n := |leaves| - 1;
    if i < n {
      BindsPrefix(leaves, x);
      assert !Binds(leaves, x, n);
      forall j | i < j
        ensures !Binds(leaves[..n], x, j)
      {
        assert !Binds(leaves, x, j);
      }
      LastBindingWins(table, leaves[..n], x, i);
    }
  }

  /** and a name with none keeps what the table had. */
  lemma {:induction false} UnboundKeepsEntry(table: Table, leaves: seq<Leaf>, x: Ident)
    requires forall i :: !Binds(leaves, x, i)
    ensures var t := InsertAll(table, leaves); (x in t <==> x in table) && (x in t ==> t[x] == table[x])
    decreases |leaves|
  {
    if leaves != [] {
      var n := |leaves| - 1;
      BindsPrefix(leaves, x);
      assert !Binds(leaves, x, n);
      forall i
        ensures !Binds(leaves[..n], x, i)
      {
        assert !Binds(leaves, x, i);
      }
      UnboundKeepsEntry(table, leaves[..n], x);
    }
  }

  /** Every path in a table stands below tokio, if that was so to begin with. */
  ghost predicate AllTokio(table: Table) {
    forall x :: x in table ==> TokioRooted(table[x])
  }

  lemma {:induction false} InsertKeepsTokio(table: Table, leaves: seq<Leaf>)
    requires AllTokio(table)
    ensures AllTokio(InsertAll(table, leaves))
    decreases |leaves|
  {
    if leaves != [] {
      InsertKeepsTokio(table, leaves[..|leaves| - 1]);
    }
  }

  ghost predicate NoneTokio(leaves: seq<Leaf>) {
    forall l :: l in leaves ==> !TokioRooted(l.canonical)
  }

  lemma {:induction false} LeavesBelow(tree: UseTree, prefix: seq<Ident>)
    requires prefix != [] && prefix[0] != tokio
    ensures NoneTokio(Leaves(tree, prefix))
    decreases tree, 0
  {
    match tree
    case UsePath(id, rest) => LeavesBelow(rest, prefix + [id]);
    case UseGroup(items) => GroupLeavesBelow(items, prefix);
    case _ =>
  }

  lemma {:induction false} GroupLeavesBelow(items: seq<UseTree>, prefix: seq<Ident>)
    requires prefix != [] && prefix[0] != tokio
    ensures NoneTokio(GroupLeaves(items, prefix))
    decreases items, |items|
  {
    if items != [] {
      var n := |items| - 1;
      LeavesBelow(items[n], prefix);
      GroupLeavesBelow(items[..n], prefix);
    }
  }

  lemma {:induction false} NoneTokioAddsNothing(table: Table, leaves: seq<Leaf>)
    requires NoneTokio(leaves)
    ensures InsertAll(table, leaves) == table
    decreases |leaves|
  {
    if leaves != [] {
      assert leaves[|leaves| - 1] in leaves;
      NoneTokioAddsNothing(table, leaves[..|leaves| - 1]);
    }
  }

  // ---------- what declarations bind ----------

  /** `path::leaf`. */
  function Below(path: seq<Ident>, leaf: UseTree): UseTree
    decreases |path|
  {
    if path == [] then leaf else UsePath(path[0], Below(path[1..], leaf))
  }

  lemma {:induction false} LeavesBelowPath(path: seq<Ident>, leaf: UseTree, prefix: seq<Ident>)
    ensures Leaves(Below(path, leaf), prefix) == Leaves(leaf, prefix + path)
    decreases |path|
  {
    if path == [] {
      assert prefix + path == prefix;
    } else {
      LeavesBelowPath(path[1..], leaf, prefix + [path[0]]);
      assert prefix + [path[0]] + path[1..] == prefix + path;
    }
  }

  /** The table after the walk over one declaration. */
  function Collected(table: Table, tree: UseTree): Table {
    InsertAll(table, Leaves(tree, []))
  }

  /** `use path::a as b` binds `b`, to `path::a`, and nothing else. */
  lemma {:induction false} RenameBinds(table: Table, path: seq<Ident>, a: Ident, b: Ident)
    requires TokioRooted(path)
    ensures Collected(table, Below(path, UseRename(a, b))) == table[b := path + [a]]
  {
    LeavesBelowPath(path, UseRename(a, b), []);
    assert [] + path == path;
    assert Leaves(UseRename(a, b), path) == [Leaf(b, path + [a])];
    InsertOne(table, Leaf(b, path + [a]));
  }

  /** `use path::a` binds `a`. */
  lemma {:induction false} NameBinds(table: Table, path: seq<Ident>, a: Ident)
    requires TokioRooted(path) && a != selfName
    ensures Collected(table, Below(path, UseName(a))) == table[a := path + [a]]
  {
    LeavesBelowPath(path, UseName(a), []);
    assert [] + path == path;
    assert Leaves(UseName(a), path) == [Leaf(a, path + [a])];
    InsertOne(table, Leaf(a, path + [a]));
  }

  /** `use path::{self}` binds the last name of the path, to the path. */
  lemma {:induction false} SelfBinds(table: Table, path: seq<Ident>)
    requires TokioRooted(path)
    ensures Collected(table, Below(path, UseName(selfName))) == table[path[|path| - 1] := path]
  {
    LeavesBelowPath(path, UseName(selfName), []);
    assert [] + path == path;
    assert Leaves(UseName(selfName), path) == [Leaf(path[|path| - 1], path)];
    InsertOne(table, Leaf(path[|path| - 1], path));
  }

  /** `use path::*` binds nothing. */
  lemma {:induction false} GlobBinds(table: Table, path: seq<Ident>)
    ensures Collected(table, Below(path, UseGlob)) == table
  {
    LeavesBelowPath(path, UseGlob, []);
  }

  /** The items of a group, one declaration after another. */
  function CollectEach(table: Table, path: seq<Ident>, items: seq<UseTree>): Table {
    if items == [] then table
    else Collected(CollectEach(table, path, items[..|items| - 1]), Below(path, items[|items| - 1]))
  }

  /** `use path::{...}` binds what `use path::item` would for each of its items in turn. */
  lemma {:induction false} GroupBinds(table: Table, path: seq<Ident>, items: seq<UseTree>)
    ensures Collected(table, Below(path, UseGroup(items))) == CollectEach(table, path, items)
    decreases |items|
  {
    LeavesBelowPath(path, UseGroup(items), []);
    assert [] + path == path;
    if items != [] {
      var n := |items| - 1;
      GroupBinds(table, path, items[..n]);
      LeavesBelowPath(path, UseGroup(items[..n]), []);
      LeavesBelowPath(path, items[n], []);
      InsertAllConcat(table, GroupLeaves(items[..n], path), Leaves(items[n], path));
    }
  }

}
