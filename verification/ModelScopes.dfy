/** The model attribute applied to whole functions and nested inline modules: which aliases each
    scope sees, and that resolving them changes nothing but the spelling of paths. */
module ModelScopes {

  import opened Options
  import opened RustSyntax
  import opened UseAliases
  import opened ModelRewrite
  import opened ModelResolution
  import opened Scoping

  // ---------- code ----------

  function CallRules(tasks: bool): Rules {
    h => CallRule(h, tasks)
  }

  /** Code is rewritten innermost first. */
  function RewriteNode(table: Table, tasks: bool, n: Node): Node
    decreases n
  {
    match n
    case Call(func, args) =>
      Call(RewritePath(table, func, CallRules(tasks)),
           seq(|args|, i requires 0 <= i < |args| => RewriteNode(table, tasks, args[i])))
    case TypeUse(ty) => TypeUse(RewriteType(table, ty))
    case MacroUse(path) => MacroUse(RewritePath(table, path, MacroRule))
    case PathUse(path) => PathUse(RewritePath(table, path, NoRule))
    case Nest(nodes) => Nest(seq(|nodes|, i requires 0 <= i < |nodes| => RewriteNode(table, tasks, nodes[i])))
  }

  function NodeMarkers(table: Table, tasks: bool, n: Node): set<Unmodeled>
    decreases n
  {
    match n
    case Call(func, args) =>
      PathMarkers(table, func) + OwnMarkers(table, func, CallRules(tasks))
      + set i, m | 0 <= i < |args| && m in NodeMarkers(table, tasks, args[i]) :: m
    case TypeUse(ty) => TypeMarkers(table, ty)
    case MacroUse(path) => PathMarkers(table, path)
    case PathUse(path) => PathMarkers(table, path)
    case Nest(nodes) => set i, m | 0 <= i < |nodes| && m in NodeMarkers(table, tasks, nodes[i]) :: m
  }

  /** The fully qualified form of a piece of code. */
  function QualifyNode(names: Naming, n: Node): Node
    decreases n
  {
    match n
    case Call(func, args) =>
      Call(QualifyPath(names, func), seq(|args|, i requires 0 <= i < |args| => QualifyNode(names, args[i])))
    case TypeUse(ty) => TypeUse(QualifyType(names, ty))
    case MacroUse(path) => MacroUse(QualifyPath(names, path))
    case PathUse(path) => PathUse(QualifyPath(names, path))
    case Nest(nodes) => Nest(seq(|nodes|, i requires 0 <= i < |nodes| => QualifyNode(names, nodes[i])))
  }

  // ---------- aliased and qualified code agree ----------

  lemma CallRuleNames(h: seq<Head>, tasks: bool)
    requires CallRule(h, tasks).Some?
    ensures 2 <= |h| <= 4 && h[0].ident != rt && h[1].ident != rt
    ensures |h| >= 3 ==> h[2].ident != rt
    ensures |h| == 4 ==> h[3].ident != rt
  {
  }

  lemma CallRulesSpare(tasks: bool)
    ensures Spares(CallRules(tasks))
  {
    forall h: seq<Head> | CallRules(tasks)(h).Some?
      ensures !Mentions(h, rt)
    {
      CallRuleNames(h, tasks);
    }
  }

  /** Every path of the code fits. */
  predicate NodeFits(fits: Fitting, n: Node)
    decreases n
  {
    match n
    case Call(func, args) => PathFits(fits, func) && forall i :: 0 <= i < |args| ==> NodeFits(fits, args[i])
    case TypeUse(ty) => PathFits(fits, ty)
    case MacroUse(path) => PathFits(fits, path)
    case PathUse(path) => PathFits(fits, path)
    case Nest(nodes) => forall i :: 0 <= i < |nodes| ==> NodeFits(fits, nodes[i])
  }

  ghost predicate SameCode(at: Place, tasks: bool, n: Node) {
    QualifyNode(at.names, RewriteNode(at.table, tasks, n)) == RewriteNode(TargetOf(at), tasks, QualifyNode(at.names, n))
  }

  ghost predicate SameMarkers(at: Place, tasks: bool, n: Node) {
    NodeMarkers(TargetOf(at), tasks, QualifyNode(at.names, n)) == NodeMarkers(at.table, tasks, n)
  }

  lemma {:induction false} NestSameCode(at: Place, tasks: bool, nodes: seq<Node>)
    requires forall i :: 0 <= i < |nodes| ==> SameCode(at, tasks, nodes[i])
    ensures SameCode(at, tasks, Nest(nodes))
  {
    var n := Nest(nodes);
    assert QualifyNode(at.names, RewriteNode(at.table, tasks, n)).nodes ==
           RewriteNode(TargetOf(at), tasks, QualifyNode(at.names, n)).nodes;
  }

  lemma {:induction false} CallSameCode(at: Place, tasks: bool, func: Path, args: seq<Node>)
    requires Sound(at) && PathFits(at.fits, func) && SameCode(at, tasks, Nest(args))
    ensures SameCode(at, tasks, Call(func, args))
  {
    var n, nest := Call(func, args), Nest(args);
    CallRulesSpare(tasks);
    PathCommutes(at, func, CallRules(tasks));
    assert QualifyNode(at.names, RewriteNode(at.table, tasks, n)).args ==
           QualifyNode(at.names, RewriteNode(at.table, tasks, nest)).nodes;
    assert RewriteNode(TargetOf(at), tasks, QualifyNode(at.names, n)).args ==
           RewriteNode(TargetOf(at), tasks, QualifyNode(at.names, nest)).nodes;
  }

  /** Code: the aliased and the qualified form get the same paths and generics, */
  lemma {:induction false} NodeCommutes(at: Place, tasks: bool, n: Node)
    requires Sound(at) && NodeFits(at.fits, n)
    ensures SameCode(at, tasks, n)
    decreases n
  {
    OtherRulesSpare();
    match n
    case Call(func, args) =>
      NodesCommute(at, tasks, args);
      NestSameCode(at, tasks, args);
      CallSameCode(at, tasks, func, args);
    case TypeUse(ty) =>
      TypeCommutes(at, ty);
    case MacroUse(path) =>
      PathCommutes(at, path, MacroRule);
    case PathUse(path) =>
      PathCommutes(at, path, NoRule);
    case Nest(nodes) =>
      NodesCommute(at, tasks, nodes);
      NestSameCode(at, tasks, nodes);
  }

  lemma {:induction false} NodesCommute(at: Place, tasks: bool, nodes: seq<Node>)
    requires Sound(at) && forall i :: 0 <= i < |nodes| ==> NodeFits(at.fits, nodes[i])
    ensures forall i :: 0 <= i < |nodes| ==> SameCode(at, tasks, nodes[i])
    decreases nodes
  {
    forall i | 0 <= i < |nodes|
      ensures SameCode(at, tasks, nodes[i])
    {
      NodeCommutes(at, tasks, nodes[i]);
    }
  }

  lemma {:induction false} NestSameMarkers(at: Place, tasks: bool, nodes: seq<Node>)
    requires forall i :: 0 <= i < |nodes| ==> SameMarkers(at, tasks, nodes[i])
    ensures SameMarkers(at, tasks, Nest(nodes))
  {
    var q := QualifyNode(at.names, Nest(nodes));
    assert forall i :: 0 <= i < |nodes| ==>
        SameMarkers(at, tasks, nodes[i]) && q.nodes[i] == QualifyNode(at.names, nodes[i]);
  }

  lemma CallMarkers(table: Table, tasks: bool, func: Path, args: seq<Node>)
    ensures NodeMarkers(table, tasks, Call(func, args)) ==
            PathMarkers(table, func) + OwnMarkers(table, func, CallRules(tasks)) + NodeMarkers(table, tasks, Nest(args))
  {
  }

  lemma CallSameMarkers(at: Place, tasks: bool, func: Path, args: seq<Node>)
    requires FullySound(at) && PathFits(at.fits, func) && SameMarkers(at, tasks, Nest(args))
    ensures SameMarkers(at, tasks, Call(func, args))
  {
    BothKeepShape(at.table, at.names);
    CallRulesSpare(tasks);
    PathMarkersCommute(at, func);
    OwnMarkersCommute(at, func, CallRules(tasks), Qualifier(at.names));
    CallMarkers(at.table, tasks, func, args);
    CallMarkers(TargetOf(at), tasks, QualifyPath(at.names, func), QualifyNode(at.names, Nest(args)).nodes);
    assert QualifyNode(at.names, Call(func, args)).args == QualifyNode(at.names, Nest(args)).nodes;
  }

  /** and raise the same markers. */
  lemma {:induction false} NodeMarkersCommute(at: Place, tasks: bool, n: Node)
    requires FullySound(at) && NodeFits(at.fits, n)
    ensures SameMarkers(at, tasks, n)
    decreases n
  {
    match n
    case Call(func, args) =>
      AllMarkersCommute(at, tasks, args);
      NestSameMarkers(at, tasks, args);
      CallSameMarkers(at, tasks, func, args);
    case TypeUse(ty) =>
      PathMarkersCommute(at, ty);
      TypeMarkersFollow(at, ty);
    case MacroUse(path) =>
      PathMarkersCommute(at, path);
    case PathUse(path) =>
      PathMarkersCommute(at, path);
    case Nest(nodes) =>
      AllMarkersCommute(at, tasks, nodes);
      NestSameMarkers(at, tasks, nodes);
  }

  lemma {:induction false} AllMarkersCommute(at: Place, tasks: bool, nodes: seq<Node>)
    requires FullySound(at) && forall i :: 0 <= i < |nodes| ==> NodeFits(at.fits, nodes[i])
    ensures forall i :: 0 <= i < |nodes| ==> SameMarkers(at, tasks, nodes[i])
    decreases nodes
  {
    forall i | 0 <= i < |nodes|
      ensures SameMarkers(at, tasks, nodes[i])
    {
      NodeMarkersCommute(at, tasks, nodes[i]);
    }
  }

  // ---------- items ----------

  /** A statement: a `use`, another item with whatever code is in it, other code, or an injected
      marker. */
  datatype Stmt =
    | UseStmt(tree: UseTree)
    | ItemStmt(name: Option<Ident>, code: Node)
    | CodeStmt(code: Node)
    | MarkerStmt(marker: Unmodeled)

  /** An item of an inline module. Modules here are inline; an out-of-line one, whose contents the
      attribute never sees, is an `OtherItem` that declares its name. */
  datatype Item =
    | UseItem(tree: UseTree)
    | FnItem(name: Ident, signature: Node, body: seq<Stmt>)
    | ModItem(name: Ident, items: seq<Item>)
    | OtherItem(declares: Option<Ident>)

  function StmtUse(s: Stmt): seq<UseTree> {
    if s.UseStmt? then [s.tree] else []
  }

  function StmtName(s: Stmt): seq<Ident> {
    if s.ItemStmt? && s.name.Some? then [s.name.value] else []
  }

  function StmtUses(stmts: seq<Stmt>): seq<UseTree> {
    if stmts == [] then [] else StmtUse(stmts[0]) + StmtUses(stmts[1..])
  }

  function StmtNames(stmts: seq<Stmt>): seq<Ident> {
    if stmts == [] then [] else StmtName(stmts[0]) + StmtNames(stmts[1..])
  }

  function UsesOf(item: Item): seq<UseTree> {
    if item.UseItem? then [item.tree] else []
  }

  function ItemUses(items: seq<Item>): seq<UseTree> {
    if items == [] then [] else UsesOf(items[0]) + ItemUses(items[1..])
  }

  function Declares(item: Item): seq<Ident> {
    match item
    case UseItem(_) => []
    case FnItem(name, _, _) => [name]
    case ModItem(name, _) => [name]
    case OtherItem(name) => if name.Some? then [name.value] else []
  }

  function ItemNames(items: seq<Item>): seq<Ident> {
    if items == [] then [] else Declares(items[0]) + ItemNames(items[1..])
  }

  function BodyTable(base: Table, body: seq<Stmt>): Table {
    ScopeTable(base, StmtUses(body), StmtNames(body))
  }

  function ModTable(base: Table, items: seq<Item>): Table {
    ScopeTable(base, ItemUses(items), ItemNames(items))
  }

  // ---------- rewriting functions and modules ----------

  function RewriteStmt(table: Table, tasks: bool, s: Stmt): Stmt {
    match s
    case ItemStmt(name, code) => ItemStmt(name, RewriteNode(table, tasks, code))
    case CodeStmt(code) => CodeStmt(RewriteNode(table, tasks, code))
    case _ => s
  }

  function StmtMarkers(table: Table, tasks: bool, s: Stmt): set<Unmodeled> {
    match s
    case ItemStmt(_, code) => NodeMarkers(table, tasks, code)
    case CodeStmt(code) => NodeMarkers(table, tasks, code)
    case _ => {}
  }

  function RewriteStmts(table: Table, tasks: bool, body: seq<Stmt>): seq<Stmt> {
    if body == [] then [] else [RewriteStmt(table, tasks, body[0])] + RewriteStmts(table, tasks, body[1..])
  }

  function BodyMarkers(table: Table, tasks: bool, body: seq<Stmt>): set<Unmodeled> {
    if body == [] then {} else StmtMarkers(table, tasks, body[0]) + BodyMarkers(table, tasks, body[1..])
  }

  /** One statement per primitive seen, in a fixed order. */
  function InjectedMarkers(seen: set<Unmodeled>): seq<Stmt> {
    Injected(ORDER, seen)
  }

  const ORDER := [UCondvar, UAtomic, UChannel, UTokioSpawn, UTokioTime, UArcSwap]

  function Injected(order: seq<Unmodeled>, seen: set<Unmodeled>): seq<Stmt> {
    if order == [] then []
    else (if order[0] in seen then [MarkerStmt(order[0])] else []) + Injected(order[1..], seen)
  }

  /** A function, in a scope that sees `base`; its markers go in front of its body. */
  function RewriteFn(base: Table, tasks: bool, f: Item): Item
    requires f.FnItem?
  {
    var table := BodyTable(base, f.body);
    var seen := NodeMarkers(table, tasks, f.signature) + BodyMarkers(table, tasks, f.body);
    FnItem(f.name, RewriteNode(table, tasks, f.signature), InjectedMarkers(seen) + RewriteStmts(table, tasks, f.body))
  }

  function RewriteItem(table: Table, tasks: bool, item: Item): Item
    decreases item, 0
  {
    match item
    case FnItem(_, _, _) => RewriteFn(table, tasks, item)
    case ModItem(name, items) => ModItem(name, RewriteMod(table, tasks, items))
    case _ => item
  }

  /** The contents of an inline module whose enclosing scope sees `base`. */
  function RewriteMod(base: Table, tasks: bool, items: seq<Item>): seq<Item>
    decreases items, 1
  {
    var table := ModTable(base, items);
    seq(|items|, i requires 0 <= i < |items| => RewriteItem(table, tasks, items[i]))
  }

  // ---------- the fully qualified form ----------

  function QualifyStmt(names: Naming, keep: bool, s: Stmt): Stmt {
    match s
    case UseStmt(tree) => UseStmt(KeptTree(keep, tree))
    case ItemStmt(name, code) => ItemStmt(name, QualifyNode(names, code))
    case CodeStmt(code) => CodeStmt(QualifyNode(names, code))
    case MarkerStmt(_) => s
  }

  function QualifyStmts(names: Naming, keep: bool, body: seq<Stmt>): seq<Stmt> {
    if body == [] then [] else [QualifyStmt(names, keep, body[0])] + QualifyStmts(names, keep, body[1..])
  }

  function BodyScope(body: seq<Stmt>): Scope {
    Scope(StmtUses(body), StmtNames(body))
  }

  function ModScope(items: seq<Item>): Scope {
    Scope(ItemUses(items), ItemNames(items))
  }

  /** An item inside `scopes`. A signature is outside its function's body. */
  function QualifyItem(scopes: seq<Scope>, keep: bool, item: Item): Item
    decreases item, 0
  {
    match item
    case UseItem(tree) => UseItem(KeptTree(keep, tree))
    case FnItem(name, signature, body) =>
      FnItem(name, QualifyNode(RustNames(scopes), signature),
             QualifyStmts(RustNames(scopes + [BodyScope(body)]), keep, body))
    case ModItem(name, items) => ModItem(name, QualifyMod(scopes, keep, items))
    case OtherItem(_) => item
  }

  /** The contents of a module inside `scopes`. */
  function QualifyMod(scopes: seq<Scope>, keep: bool, items: seq<Item>): seq<Item>
    decreases items, 1
  {
    var inner := scopes + [ModScope(items)];
    seq(|items|, i requires 0 <= i < |items| => QualifyItem(inner, keep, items[i]))
  }

  // ---------- which programs qualify ----------

  /** Where `use` declarations are kept, `tokio` is no alias but of tokio itself; where they are
      dropped, an alias called like the model crate, if there is one, is a quiet one. */
  predicate ScopesFit(scopes: seq<Scope>, keep: bool) {
    if keep then AliasOf(scopes, tokio) == None || AliasOf(scopes, tokio) == Some([tokio])
    else AliasOf(scopes, laplace_sdk) == None || Quiet(AliasOf(scopes, laplace_sdk).value)
  }

  /** Names in a body: not hidden from an alias that is in force, and at the root no alias. */
  function BodyFitting(inside: seq<Scope>): Fitting {
    (x, rooted) => if rooted then AliasOf(inside, x) == None else Unhidden(inside, x)
  }

  /** Names in a signature: the same, and the body does not change their alias. */
  function SignatureFitting(outside: seq<Scope>, inside: seq<Scope>): Fitting {
    (x, rooted) =>
      if rooted then AliasOf(inside, x) == None
      else Unhidden(outside, x) && AliasOf(inside, x) == AliasOf(outside, x)
  }

  predicate StmtFits(fits: Fitting, s: Stmt) {
    s.ItemStmt? || s.CodeStmt? ==> NodeFits(fits, s.code)
  }

  predicate ItemFits(scopes: seq<Scope>, keep: bool, item: Item)
    decreases item, 0
  {
    match item
    case FnItem(_, signature, body) =>
      var inside := scopes + [BodyScope(body)];
      && ScopesFit(inside, keep)
      && NodeFits(SignatureFitting(scopes, inside), signature)
      && forall i :: 0 <= i < |body| ==> StmtFits(BodyFitting(inside), body[i])
    case ModItem(_, items) => ModFits(scopes, keep, items)
    case _ => true
  }

  predicate ModFits(scopes: seq<Scope>, keep: bool, items: seq<Item>)
    decreases items, 1
  {
    forall i :: 0 <= i < |items| ==> ItemFits(scopes + [ModScope(items)], keep, items[i])
  }

  /** The code's table of a scope holds the aliases in force there. */
  ghost predicate Tracks(table: Table, scopes: seq<Scope>) {
    Follows(table, AliasNames(scopes)) && AllTokio(table)
  }

  lemma EnterScope(base: Table, scopes: seq<Scope>, scope: Scope)
    requires Tracks(base, scopes)
    ensures Tracks(ScopeTable(base, scope.uses, scope.declared), scopes + [scope])
  {
    ScopeTableFollows(base, scopes, scope);
    ScopeTableKeepsTokio(base, scope.uses, scope.declared);
  }

  lemma TrackedScopes(table: Table, scopes: seq<Scope>, x: Ident)
    requires Tracks(table, scopes)
    ensures AliasOf(scopes, x) == Lookup(table, x)
  {
    assert AliasNames(scopes)(x) == AliasOf(scopes, x);
  }

  /** The body of a function, and its signature. */
  lemma BodyIsSound(table: Table, inside: seq<Scope>, keep: bool)
    requires Tracks(table, inside) && ScopesFit(inside, keep)
    ensures FullySound(Place(table, RustNames(inside), BodyFitting(inside), keep))
  {
    TrackedScopes(table, inside, tokio);
    TrackedScopes(table, inside, laplace_sdk);
    forall x
      ensures Unhidden(inside, x) ==> RustMeaning(inside, x) == Lookup(table, x)
      ensures AliasOf(inside, x) == Lookup(table, x)
    {
      TrackedScopes(table, inside, x);
      AliasIsMeaning(inside, x);
    }
  }

  lemma SignatureIsSound(table: Table, outside: seq<Scope>, inside: seq<Scope>, keep: bool)
    requires Tracks(table, inside) && ScopesFit(inside, keep)
    ensures FullySound(Place(table, RustNames(outside), SignatureFitting(outside, inside), keep))
  {
    TrackedScopes(table, inside, tokio);
    TrackedScopes(table, inside, laplace_sdk);
    forall x
      ensures Unhidden(outside, x) ==> RustMeaning(outside, x) == AliasOf(outside, x)
      ensures AliasOf(inside, x) == Lookup(table, x)
    {
      TrackedScopes(table, inside, x);
      AliasIsMeaning(outside, x);
    }
  }

  // ---------- what rewriting and qualifying leave of a scope's declarations ----------

  lemma {:induction false} RewrittenDeclares(table: Table, tasks: bool, body: seq<Stmt>)
    ensures StmtUses(RewriteStmts(table, tasks, body)) == StmtUses(body)
    ensures StmtNames(RewriteStmts(table, tasks, body)) == StmtNames(body)
    decreases |body|
  {
    if body != [] {
      RewrittenDeclares(table, tasks, body[1..]);
      assert RewriteStmts(table, tasks, body)[1..] == RewriteStmts(table, tasks, body[1..]);
    }
  }

  lemma QualifiedDeclaresOne(names: Naming, keep: bool, s: Stmt)
    ensures StmtUse(QualifyStmt(names, keep, s)) == KeptTrees(keep, StmtUse(s))
    ensures StmtName(QualifyStmt(names, keep, s)) == StmtName(s)
  {
  }

  lemma {:induction false} QualifiedDeclares(names: Naming, keep: bool, body: seq<Stmt>)
    ensures StmtUses(QualifyStmts(names, keep, body)) == KeptTrees(keep, StmtUses(body))
    ensures StmtNames(QualifyStmts(names, keep, body)) == StmtNames(body)
    decreases |body|
  {
    if body != [] {
      QualifiedDeclaresOne(names, keep, body[0]);
      QualifiedDeclares(names, keep, body[1..]);
      KeptTreesConcat(keep, StmtUse(body[0]), StmtUses(body[1..]));
      assert QualifyStmts(names, keep, body)[1..] == QualifyStmts(names, keep, body[1..]);
    }
  }

  predicate AllMarkers(stmts: seq<Stmt>) {
    forall i :: 0 <= i < |stmts| ==> stmts[i].MarkerStmt?
  }

  lemma {:induction false} InjectedAreMarkers(order: seq<Unmodeled>, seen: set<Unmodeled>)
    ensures AllMarkers(Injected(order, seen))
    decreases |order|
  {
    if order != [] {
      InjectedAreMarkers(order[1..], seen);
    }
  }

  /** Markers in front change neither what a body declares, */
  lemma {:induction false} MarkersDeclareNothing(markers: seq<Stmt>, body: seq<Stmt>)
    requires AllMarkers(markers)
    ensures StmtUses(markers + body) == StmtUses(body) && StmtNames(markers + body) == StmtNames(body)
    decreases |markers|
  {
    if markers == [] {
      assert markers + body == body;
    } else {
      assert (markers + body)[1..] == markers[1..] + body;
      assert (markers + body)[0].MarkerStmt?;
      MarkersDeclareNothing(markers[1..], body);
    }
  }

  /** nor how it is qualified. */
  lemma {:induction false} MarkersStayQualified(names: Naming, keep: bool, markers: seq<Stmt>, body: seq<Stmt>)
    requires AllMarkers(markers)
    ensures QualifyStmts(names, keep, markers + body) == markers + QualifyStmts(names, keep, body)
    decreases |markers|
  {
    if markers == [] {
      assert markers + body == body;
    } else {
      var rest := markers[1..];
      assert (markers + body)[1..] == rest + body;
      assert QualifyStmt(names, keep, markers[0]) == markers[0];
      MarkersStayQualified(names, keep, rest, body);
      assert markers == [markers[0]] + rest;
    }
  }

  // ---------- the theorem ----------

  lemma StmtCommutes(at: Place, tasks: bool, s: Stmt)
    requires FullySound(at) && StmtFits(at.fits, s)
    ensures QualifyStmt(at.names, at.keep, RewriteStmt(at.table, tasks, s)) ==
            RewriteStmt(TargetOf(at), tasks, QualifyStmt(at.names, at.keep, s))
    ensures StmtMarkers(TargetOf(at), tasks, QualifyStmt(at.names, at.keep, s)) == StmtMarkers(at.table, tasks, s)
  {
    if s.ItemStmt? || s.CodeStmt? {
      NodeCommutes(at, tasks, s.code);
      NodeMarkersCommute(at, tasks, s.code);
    }
  }

  lemma {:induction false} StmtsCommute(at: Place, tasks: bool, body: seq<Stmt>)
    requires FullySound(at) && forall i :: 0 <= i < |body| ==> StmtFits(at.fits, body[i])
    ensures QualifyStmts(at.names, at.keep, RewriteStmts(at.table, tasks, body)) ==
            RewriteStmts(TargetOf(at), tasks, QualifyStmts(at.names, at.keep, body))
    ensures BodyMarkers(TargetOf(at), tasks, QualifyStmts(at.names, at.keep, body)) ==
            BodyMarkers(at.table, tasks, body)
    decreases |body|
  {
    if body != [] {
      var rest := body[1..];
      StmtsCommute(at, tasks, rest);
      StmtCommutes(at, tasks, body[0]);
      assert RewriteStmts(at.table, tasks, body)[1..] == RewriteStmts(at.table, tasks, rest);
      assert QualifyStmts(at.names, at.keep, body)[1..] == QualifyStmts(at.names, at.keep, rest);
    }
  }

  /** The body scope of a rewritten function is that of the function. */
  lemma RewrittenScope(base: Table, tasks: bool, f: Item)
    requires f.FnItem?
    ensures BodyScope(RewriteFn(base, tasks, f).body) == BodyScope(f.body)
  {
    var table := BodyTable(base, f.body);
    var seen := NodeMarkers(table, tasks, f.signature) + BodyMarkers(table, tasks, f.body);
    InjectedAreMarkers(ORDER, seen);
    MarkersDeclareNothing(InjectedMarkers(seen), RewriteStmts(table, tasks, f.body));
    RewrittenDeclares(table, tasks, f.body);
  }

  lemma FnCommutes(base: Table, scopes: seq<Scope>, keep: bool, tasks: bool, f: Item)
    requires f.FnItem? && Tracks(base, scopes) && ItemFits(scopes, keep, f)
    ensures QualifyItem(scopes, keep, RewriteFn(base, tasks, f)) ==
            RewriteFn(Target(base, keep), tasks, QualifyItem(scopes, keep, f))
  {
    var table, inside := BodyTable(base, f.body), scopes + [BodyScope(f.body)];
    var seen := NodeMarkers(table, tasks, f.signature) + BodyMarkers(table, tasks, f.body);
    var within := Place(table, RustNames(inside), BodyFitting(inside), keep);
    var above := Place(table, RustNames(scopes), SignatureFitting(scopes, inside), keep);
    EnterScope(base, scopes, BodyScope(f.body));
    BodyIsSound(table, inside, keep);
    SignatureIsSound(table, scopes, inside, keep);
    RewrittenScope(base, tasks, f);
    InjectedAreMarkers(ORDER, seen);
    MarkersStayQualified(within.names, keep, InjectedMarkers(seen), RewriteStmts(table, tasks, f.body));
    QualifiedDeclares(within.names, keep, f.body);
    TargetScope(base, keep, StmtUses(f.body), StmtNames(f.body));
    NodeCommutes(above, tasks, f.signature);
    NodeMarkersCommute(above, tasks, f.signature);
    StmtsCommute(within, tasks, f.body);
  }

  /** The same declaration, its `use` tree kept or emptied. */
  predicate SameDeclaration(keep: bool, item: Item, other: Item) {
    && Declares(other) == Declares(item)
    && other.UseItem? == item.UseItem?
    && (item.UseItem? ==> other.tree == KeptTree(keep, item.tree))
  }

  predicate SameDeclarations(keep: bool, items: seq<Item>, others: seq<Item>) {
    |others| == |items| && forall i :: 0 <= i < |items| ==> SameDeclaration(keep, items[i], others[i])
  }

  lemma SameUses(keep: bool, item: Item, other: Item)
    requires SameDeclaration(keep, item, other)
    ensures UsesOf(other) == KeptTrees(keep, UsesOf(item))
  {
  }

  lemma {:induction false} ModDeclares(keep: bool, items: seq<Item>, others: seq<Item>)
    requires SameDeclarations(keep, items, others)
    ensures ItemUses(others) == KeptTrees(keep, ItemUses(items)) && ItemNames(others) == ItemNames(items)
    decreases |items|
  {
    if items != [] {
      SameUses(keep, items[0], others[0]);
      KeptTreesConcat(keep, UsesOf(items[0]), ItemUses(items[1..]));
      ModDeclares(keep, items[1..], others[1..]);
    }
  }

  lemma ItemDeclares(table: Table, scopes: seq<Scope>, keep: bool, tasks: bool, item: Item)
    ensures SameDeclaration(true, item, RewriteItem(table, tasks, item))
    ensures SameDeclaration(keep, item, QualifyItem(scopes, keep, item))
  {
  }

  lemma RewrittenModScope(base: Table, tasks: bool, items: seq<Item>)
    ensures ModScope(RewriteMod(base, tasks, items)) == ModScope(items)
  {
    var rewritten := RewriteMod(base, tasks, items);
    forall i | 0 <= i < |items|
      ensures SameDeclaration(true, items[i], rewritten[i])
    {
      ItemDeclares(ModTable(base, items), [], true, tasks, items[i]);
    }
    ModDeclares(true, items, rewritten);
    assert KeptTrees(true, ItemUses(items)) == ItemUses(items);
  }

  lemma QualifiedModTable(base: Table, scopes: seq<Scope>, keep: bool, items: seq<Item>)
    ensures ModTable(Target(base, keep), QualifyMod(scopes, keep, items)) == Target(ModTable(base, items), keep)
  {
    var qualified := QualifyMod(scopes, keep, items);
    forall i | 0 <= i < |items|
      ensures SameDeclaration(keep, items[i], qualified[i])
    {
      ItemDeclares(base, scopes + [ModScope(items)], keep, false, items[i]);
    }
    ModDeclares(keep, items, qualified);
    TargetScope(base, keep, ItemUses(items), ItemNames(items));
  }

  lemma {:induction false} ItemCommutes(table: Table, scopes: seq<Scope>, keep: bool, tasks: bool, item: Item)
    requires Tracks(table, scopes) && ItemFits(scopes, keep, item)
    ensures QualifyItem(scopes, keep, RewriteItem(table, tasks, item)) ==
            RewriteItem(Target(table, keep), tasks, QualifyItem(scopes, keep, item))
    decreases item, 0
  {
    match item
    case FnItem(_, _, _) => FnCommutes(table, scopes, keep, tasks, item);
    case ModItem(_, items) => ModCommutes(table, scopes, keep, tasks, items);
    case _ =>
  }

  /** Through any nesting of modules: rewriting the aliased program and writing its paths out
      is writing them out, by what names mean in their scopes, and rewriting without the aliases
      (or with them still in place), for programs none of whose names is hidden from an alias.
      Paths, generics and injected markers all agree. */
  lemma {:induction false} ModCommutes(base: Table, scopes: seq<Scope>, keep: bool, tasks: bool, items: seq<Item>)
    requires Tracks(base, scopes) && ModFits(scopes, keep, items)
    ensures QualifyMod(scopes, keep, RewriteMod(base, tasks, items)) ==
            RewriteMod(Target(base, keep), tasks, QualifyMod(scopes, keep, items))
    decreases items, 1
  {
    var table, inner := ModTable(base, items), scopes + [ModScope(items)];
    var rewritten, qualified := RewriteMod(base, tasks, items), QualifyMod(scopes, keep, items);
    EnterScope(base, scopes, ModScope(items));
    RewrittenModScope(base, tasks, items);
    QualifiedModTable(base, scopes, keep, items);
    forall i | 0 <= i < |items|
      ensures QualifyItem(inner, keep, rewritten[i]) == RewriteItem(Target(table, keep), tasks, qualified[i])
    {
      ItemCommutes(table, inner, keep, tasks, items[i]);
    }
  }

  /** The annotated module itself: it starts from no aliases. */
  lemma AnnotatedModCommutes(keep: bool, tasks: bool, items: seq<Item>)
    requires ModFits([], keep, items)
    ensures QualifyMod([], keep, RewriteMod(map[], tasks, items)) ==
            RewriteMod(map[], tasks, QualifyMod([], keep, items))
  {
    ModCommutes(map[], [], keep, tasks, items);
  }

}
