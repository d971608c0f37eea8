/** Where the rewriting departs from how Rust, or its own documentation, would resolve a path:
    what it does there, for every path, and a program that shows it. */
module ModelDepartures {

  import opened Options
  import opened RustSyntax
  import opened UseAliases
  import opened ModelRewrite
  import opened ModelResolution
  import opened Scoping
  import opened ModelScopes

  // ---------- a leading `::` is ignored ----------

  /** A path that starts from the root is looked up like any other: it is left as it is iff its
      first name is no alias, and otherwise it is taken for the relative path. */
  lemma LeadingColonIsIgnored(table: Table, segs: seq<Segment>)
    requires segs != []
    ensures Canonical(table, Path(true, segs)) == Path(true, segs) <==> segs[0].ident !in table
    ensures segs[0].ident in table ==> Canonical(table, Path(true, segs)) == Canonical(table, Path(false, segs))
  {
  }

  /** After `use tokio::time`, a call of the external crate's `::time::sleep` is rewritten. */
  lemma ExternalTimeIsRewritten(table: Table)
    requires time in table && table[time] == [tokio, time]
    ensures Replace(table, Path(true, [Plain(time), Plain(sleep)]), CallRules(false)) ==
            Path(true, [Plain(laplace_sdk), Plain(rt), Plain(time), Plain(sleep)])
  {
    var p := Path(true, [Plain(time), Plain(sleep)]);
    var segs := [Plain(tokio), Plain(time), Plain(sleep)];
    assert Canonical(table, p).segments == segs;
    var h := Heads(segs);
    assert h[0] == Head(tokio, true) && h[1] == Head(time, true) && h[2] == Head(sleep, true);
    var rule := Rule([time, sleep], None, None);
    assert CallRule(h, false) == Some(rule);
    assert Build(rule, segs).segments == [Plain(laplace_sdk), Plain(rt), Plain(time), Plain(sleep)];
  }

  // ---------- a signature sees the aliases of its body ----------

  function UseTokioMutex(): UseTree {
    UsePath(tokio, UsePath(sync, UseName(Mutex)))
  }

  function PlainMutex(): Path {
    Path(false, [Plain(Mutex)])
  }

  function ModelMutexPath(): Path {
    Path(true, [Plain(laplace_sdk), Plain(rt), Plain(ModelAsyncMutex)])
  }

  lemma UseTokioMutexBinds()
    ensures GroupLeaves([UseTokioMutex()], []) == [Leaf(Mutex, [tokio, sync, Mutex])]
  {
    assert [UseTokioMutex()][..0] == [];
    assert [] + [tokio] + [sync] + [Mutex] == [tokio, sync, Mutex];
  }

  /** A scope that binds `Mutex` to tokio's and declares no such item. */
  lemma MutexInScope(base: Table)
    ensures var t := ScopeTable(base, [UseTokioMutex()], []);
            Mutex in t && t[Mutex] == [tokio, sync, Mutex]
  {
    UseTokioMutexBinds();
    var leaves := GroupLeaves([UseTokioMutex()], []);
    ScopeLookup(base, [UseTokioMutex()], [], Mutex);
    assert LastBinding(leaves, Mutex, 0);
  }

  lemma MutexBecomesModel(table: Table)
    requires Mutex in table && table[Mutex] == [tokio, sync, Mutex]
    ensures RewriteType(table, PlainMutex()) == ModelMutexPath()
  {
    var p, segs := PlainMutex(), [Plain(tokio), Plain(sync), Plain(Mutex)];
    TypesArePaths(table, p);
    assert OnArgs(p, Rewriter(table)).segments == p.segments;
    assert Canonical(table, p).segments == segs;
    var h := Heads(segs);
    assert h[0] == Head(tokio, true) && h[1] == Head(sync, true) && h[2] == Head(Mutex, true);
    var rule := Rule([ModelAsyncMutex], Some(2), None);
    assert TypeRule(h) == Some(rule);
    assert Build(rule, segs).segments == ModelMutexPath().segments;
  }

  lemma UnboundMutexStays(table: Table)
    requires Mutex !in table
    ensures RewriteType(table, PlainMutex()) == PlainMutex()
  {
    var p := PlainMutex();
    TypesArePaths(table, p);
    assert OnArgs(p, Rewriter(table)).segments == p.segments;
    assert |Heads(p.segments)| == 1;
  }

  /** `fn f(m: Mutex) { use tokio::sync::Mutex; }`: outside the body the name is not tokio's, yet
      the signature is rewritten as if it were. */
  lemma SignatureSeesBodyAliases(base: Table, tasks: bool, name: Ident)
    requires Mutex !in base
    ensures var f := FnItem(name, TypeUse(PlainMutex()), [UseStmt(UseTokioMutex())]);
            && RewriteFn(base, tasks, f).signature == TypeUse(ModelMutexPath())
            && RewriteNode(base, tasks, f.signature) == f.signature
  {
    var body := [UseStmt(UseTokioMutex())];
    assert body[1..] == [] && StmtUses(body) == [UseTokioMutex()] && StmtNames(body) == [];
    MutexInScope(base);
    MutexBecomesModel(BodyTable(base, body));
    UnboundMutexStays(base);
  }

  /** Exactly when that makes no difference: signature paths resolve as they do outside the body
      iff every alias the body adds was there already, for the same path. */
  lemma SignatureUnaffectedIff(base: Table, uses: seq<UseTree>, declared: seq<Ident>)
    requires AllTokio(base)
    ensures (forall p :: Canonical(ScopeTable(base, uses, declared), p) == Canonical(base, p)) <==>
            (forall x :: x in OwnAliases(uses, declared) ==> x in base && base[x] == OwnAliases(uses, declared)[x])
  {
    var own, inside := OwnAliases(uses, declared), ScopeTable(base, uses, declared);
    ScopeTableKeepsTokio(base, uses, declared);
    if forall p :: Canonical(inside, p) == Canonical(base, p) {
      forall x | x in own
        ensures x in base && base[x] == own[x]
      {
        AliasShows(base, inside, x);
      }
    } else {
      var p :| Canonical(inside, p) != Canonical(base, p);
      var x := p.segments[0].ident;
      assert x in own && !(x in base && base[x] == own[x]);
    }
  }

  /** A path of one name, from the root, shows whether the name is an alias and of what. */
  lemma AliasShows(base: Table, inside: Table, x: Ident)
    requires AllTokio(base) && AllTokio(inside) && x in inside
    requires Canonical(inside, Path(true, [Plain(x)])) == Canonical(base, Path(true, [Plain(x)]))
    ensures x in base && base[x] == inside[x]
  {
    var p := Path(true, [Plain(x)]);
    var q, r := Canonical(inside, p), Canonical(base, p);
    assert !q.leadingColon;
    assert |q.segments| == |inside[x]| && |r.segments| == |base[x]|;
    forall i | 0 <= i < |inside[x]|
      ensures inside[x][i] == base[x][i]
    {
      assert q.segments[i].ident == inside[x][i] && r.segments[i].ident == base[x][i];
    }
  }

  // ---------- an enclosing alias outlives an item of its name ----------

  /** For a name its items declare, a scope sees exactly what the enclosing scope does, */
  lemma DeclaredSeesEnclosing(base: Table, trees: seq<UseTree>, declared: seq<Ident>, x: Ident)
    requires x in declared
    ensures var t := ScopeTable(base, trees, declared);
            (x in t <==> x in base) && (x in t ==> t[x] == base[x])
  {
    ScopeLookup(base, trees, declared, x);
  }

  lemma TwoItems(a: Item, b: Item)
    ensures ItemUses([a, b]) == UsesOf(a) + UsesOf(b) && ItemNames([a, b]) == Declares(a) + Declares(b)
  {
    assert [a, b][1..] == [b] && [b][1..] == [];
    assert ItemUses([b]) == UsesOf(b) && ItemNames([b]) == Declares(b);
  }

  lemma EmptyScope(base: Table)
    ensures ScopeTable(base, [], []) == base
  {
  }

  /** A module that declares its own `Mutex` and has a function over it. */
  function OwnMutexModule(f: Ident): seq<Item> {
    [OtherItem(Some(Mutex)), FnItem(f, TypeUse(PlainMutex()), [])]
  }

  lemma OwnMutexIsRewritten(base: Table, tasks: bool, f: Ident)
    requires Mutex in base && base[Mutex] == [tokio, sync, Mutex]
    ensures var fn := RewriteMod(base, tasks, OwnMutexModule(f))[1];
            fn.FnItem? && fn.signature == TypeUse(ModelMutexPath())
  {
    var items := OwnMutexModule(f);
    var table := ModTable(base, items);
    TwoItems(items[0], items[1]);
    assert Mutex in ItemNames(items);
    DeclaredSeesEnclosing(base, ItemUses(items), ItemNames(items), Mutex);
    EmptyScope(table);
    MutexBecomesModel(table);
  }

  lemma OuterTable(m: Ident, inner: seq<Item>)
    requires m != Mutex
    ensures var t := ModTable(map[], [UseItem(UseTokioMutex()), ModItem(m, inner)]);
            Mutex in t && t[Mutex] == [tokio, sync, Mutex]
  {
    TwoItems(UseItem(UseTokioMutex()), ModItem(m, inner));
    assert [UseTokioMutex()] + [] == [UseTokioMutex()] && [] + [m] == [m];
    UseTokioMutexBinds();
    ScopeLookup(map[], [UseTokioMutex()], [m], Mutex);
    assert LastBinding(GroupLeaves([UseTokioMutex()], []), Mutex, 0);
  }

  /** `use tokio::sync::Mutex; mod m { struct Mutex; fn f(m: Mutex) {} }`: so the inner type is
      rewritten, though the item of the same module is meant. */
  lemma EnclosingAliasOutlivesItem(tasks: bool, m: Ident, f: Ident)
    requires m != Mutex
    ensures var outer := [UseItem(UseTokioMutex()), ModItem(m, OwnMutexModule(f))];
            var rewritten := RewriteMod(map[], tasks, outer)[1];
            && rewritten.ModItem? && |rewritten.items| == 2 && rewritten.items[1].FnItem?
            && rewritten.items[1].signature == TypeUse(ModelMutexPath())
  {
    var outer := [UseItem(UseTokioMutex()), ModItem(m, OwnMutexModule(f))];
    OuterTable(m, OwnMutexModule(f));
    OwnMutexIsRewritten(ModTable(map[], outer), tasks, f);
  }

  // ---------- and an inner `use` of another crate ----------

  function UseStdMutex(): UseTree {
    UsePath(std, UsePath(sync, UseName(Mutex)))
  }

  /** `use std::sync::Mutex; fn f(m: Mutex) {}`, as the contents of a module. */
  function StdMutexModule(f: Ident): seq<Item> {
    [UseItem(UseStdMutex()), FnItem(f, TypeUse(PlainMutex()), [])]
  }

  lemma StdMutexLeaves()
    ensures GroupLeaves([UseStdMutex()], []) == [Leaf(Mutex, [std, sync, Mutex])]
  {
    assert [UseStdMutex()][..0] == [];
    assert [] + [std] + [sync] + [Mutex] == [std, sync, Mutex];
  }

  /** Inside a scope that has `use tokio::sync::Mutex`, a module's own `use std::sync::Mutex` is
      passed over and its `Mutex` rewritten to the tokio model, although the name is hidden from
      that alias and means std's. */
  lemma InnerStdUseIsIgnored(base: Table, scopes: seq<Scope>, tasks: bool, f: Ident)
    requires Tracks(base, scopes) && Mutex in base && base[Mutex] == [tokio, sync, Mutex]
    ensures var items := StdMutexModule(f);
            var inner := scopes + [ModScope(items)];
            && RewriteMod(base, tasks, items)[1].FnItem?
            && RewriteMod(base, tasks, items)[1].signature == TypeUse(ModelMutexPath())
            && RustMeaning(inner, Mutex) == None && !Unhidden(inner, Mutex)
            && QualifyMod(scopes, true, items)[1].FnItem?
            && QualifyMod(scopes, true, items)[1].signature == TypeUse(PlainMutex())
  {
    var items := StdMutexModule(f);
    var inner := scopes + [ModScope(items)];
    TwoItems(items[0], items[1]);
    OtherCrateAddsNothing(base, std, UsePath(sync, UseName(Mutex)), ItemNames(items));
    EmptyScope(base);
    MutexBecomesModel(base);
    StdMutexHides(scopes, ModScope(items));
    EnterScope(base, scopes, ModScope(items));
    TrackedScopes(base, inner, Mutex);
    PlainMutexStays(RustNames(inner));
  }

  lemma StdMutexHides(scopes: seq<Scope>, scope: Scope)
    requires scope.uses == [UseStdMutex()]
    ensures Hides(scope, Mutex) && RustMeaning(scopes + [scope], Mutex) == None
  {
    StdMutexLeaves();
    assert (scopes + [scope])[|scopes|] == scope;
  }

  lemma PlainMutexStays(names: Naming)
    requires names(Mutex) == None
    ensures QualifyType(names, PlainMutex()) == PlainMutex()
  {
    QualifiedTypesArePaths(names, PlainMutex());
    assert OnArgs(PlainMutex(), Qualifier(names)).segments == PlainMutex().segments;
  }

  // ---------- a rebound `tokio` ----------

  /** With `tokio` rebound to `tokio::sync` and the declaration kept, the aliased and the
      qualified form part: `tokio::Mutex` is rewritten, its qualified form `tokio::sync::Mutex`
      is not. */
  lemma ReboundTokioBreaksKeptForm()
    ensures var table: Table := map[tokio := [tokio, sync]];
            var p := Path(false, [Plain(tokio), Plain(Mutex)]);
            && Replace(table, p, TypeRule) == ModelMutexPath()
            && Canonical(table, p) == Path(false, [Plain(tokio), Plain(sync), Plain(Mutex)])
            && Replace(table, Canonical(table, p), TypeRule) == Canonical(table, p)
  {
    var table: Table := map[tokio := [tokio, sync]];
    var p := Path(false, [Plain(tokio), Plain(Mutex)]);
    var q := Path(false, [Plain(tokio), Plain(sync), Plain(Mutex)]);
    assert Canonical(table, p).segments == q.segments;
    var heads := Heads(q.segments);
    assert heads[0] == Head(tokio, true) && heads[1] == Head(sync, true) && heads[2] == Head(Mutex, true);
    assert TypeRule(heads) == Some(Rule([ModelAsyncMutex], Some(2), None));
    assert Build(TypeRule(heads).value, q.segments).segments == ModelMutexPath().segments;
    var r := Heads(Canonical(table, q).segments);
    assert |r| == 4 && r[2] == Head(sync, true);
  }

}
