/** What a rewritten program is like, piece by piece: the same program but for its paths, with no
    path left that has a model, and with a marker for exactly what was recognised without one. */
module ModelCompleteness {

  import opened Options
  import opened RustSyntax
  import opened UseAliases
  import opened ModelRewrite
  import opened ModelScopes
  import ModelHonesty
  import ModelLaws

  // ---------- nothing that has a model is left ----------

  predicate NoRuleFor(table: Table, p: Path, rules: Rules) {
    rules(Heads(Canonical(table, p).segments)) == None
  }

  predicate CleanType(table: Table, p: Path)
    decreases p, 1
  {
    NoRuleFor(table, p, TypeRule) && CleanArgs(table, p)
  }

  /** No type in the path's generic arguments has a model. */
  predicate CleanArgs(table: Table, p: Path)
    decreases p, 0
  {
    forall i :: 0 <= i < |p.segments| ==> CleanArg(table, p.segments[i].args)
  }

  predicate CleanArg(table: Table, args: Args)
    decreases args
  {
    args.Angle? ==> forall i :: 0 <= i < |args.types| ==> CleanType(table, args.types[i])
  }

  /** No call, type or macro of the code has a model. */
  predicate Clean(table: Table, tasks: bool, n: Node)
    decreases n
  {
    match n
    case Call(func, args) =>
      && NoRuleFor(table, func, CallRules(tasks)) && CleanArgs(table, func)
      && forall i :: 0 <= i < |args| ==> Clean(table, tasks, args[i])
    case TypeUse(ty) => CleanType(table, ty)
    case MacroUse(path) => NoRuleFor(table, path, MacroRule) && CleanArgs(table, path)
    case PathUse(path) => CleanArgs(table, path)
    case Nest(nodes) => forall i :: 0 <= i < |nodes| ==> Clean(table, tasks, nodes[i])
  }

  lemma ModelPathHasNoRule(table: Table, p: Path, rules: Rules)
    requires ModelPath(p) && Spares(rules)
    ensures NoRuleFor(table, p, rules)
  {
    var resolved := Canonical(table, p).segments;
    var at := if laplace_sdk in table then |table[laplace_sdk]| else 1;
    assert resolved[at] == p.segments[1];
    SparedRule(rules, Heads(resolved), at);
  }

  lemma ReplacedHasNoRule(table: Table, p: Path, rules: Rules)
    requires Spares(rules)
    ensures NoRuleFor(table, RewritePath(table, p, rules), rules)
  {
    var p1 := OnArgs(p, Rewriter(table));
    var resolved := Canonical(table, p1).segments;
    if rules(Heads(resolved)).Some? {
      var built := Build(rules(Heads(resolved)).value, resolved);
      BuiltIsModelPath(rules(Heads(resolved)).value, resolved);
      ModelPathHasNoRule(table, built, rules);
    }
  }

  /** Arguments in a rewritten path are arguments of the path, or none. */
  lemma ReplacedArgs(table: Table, p: Path, rules: Rules, i: nat) returns (j: nat)
    requires i < |Replace(table, p, rules).segments| && Replace(table, p, rules).segments[i].args != NoArgs
    ensures j < |p.segments| && Replace(table, p, rules).segments[i].args == p.segments[j].args
  {
    var resolved := Canonical(table, p).segments;
    var found := rules(Heads(resolved));
    if found.None? {
      j := i;
    } else {
      var from := found.value.argsFrom.value;
      j := ModelLaws.ResolvedArgs(table, p, from);
    }
  }

  lemma {:induction false} RewrittenArgsAreClean(table: Table, p: Path, rules: Rules)
    ensures CleanArgs(table, RewritePath(table, p, rules))
    decreases p, 0
  {
    var p1 := OnArgs(p, Rewriter(table));
    var q := Replace(table, p1, rules);
    forall i | 0 <= i < |q.segments|
      ensures CleanArg(table, q.segments[i].args)
    {
      if q.segments[i].args != NoArgs {
        var j := ReplacedArgs(table, p1, rules, i);
        RewrittenArgIsClean(table, p.segments[j].args);
      }
    }
  }

  lemma {:induction false} RewrittenArgIsClean(table: Table, args: Args)
    ensures CleanArg(table, RewriteArgs(table, args))
    decreases args, 0
  {
    if args.Angle? {
      forall i | 0 <= i < |args.types|
        ensures CleanType(table, RewriteType(table, args.types[i]))
      {
        RewrittenTypeIsClean(table, args.types[i]);
      }
    }
  }

  lemma {:induction false} RewrittenTypeIsClean(table: Table, ty: Path)
    ensures CleanType(table, RewriteType(table, ty))
    decreases ty, 1
  {
    TypesArePaths(table, ty);
    TypeRuleSpares();
    ReplacedHasNoRule(table, ty, TypeRule);
    RewrittenArgsAreClean(table, ty, TypeRule);
  }

  /** Rewritten code has no call, type or macro left that has a model, at any depth. */
  lemma {:induction false} RewrittenIsClean(table: Table, tasks: bool, n: Node)
    ensures Clean(table, tasks, RewriteNode(table, tasks, n))
    decreases n
  {
    OtherRulesSpare();
    match n
    case Call(func, args) =>
      CallRulesSpare(tasks);
      ReplacedHasNoRule(table, func, CallRules(tasks));
      RewrittenArgsAreClean(table, func, CallRules(tasks));
      RewrittenPartsAreClean(table, tasks, args);
    case TypeUse(ty) =>
      RewrittenTypeIsClean(table, ty);
    case MacroUse(path) =>
      ReplacedHasNoRule(table, path, MacroRule);
      RewrittenArgsAreClean(table, path, MacroRule);
    case PathUse(path) =>
      RewrittenArgsAreClean(table, path, NoRule);
    case Nest(nodes) =>
      RewrittenPartsAreClean(table, tasks, nodes);
  }

  lemma {:induction false} RewrittenPartsAreClean(table: Table, tasks: bool, nodes: seq<Node>)
    ensures forall i :: 0 <= i < |nodes| ==> Clean(table, tasks, RewriteNode(table, tasks, nodes[i]))
    decreases nodes
  {
    forall i | 0 <= i < |nodes|
      ensures Clean(table, tasks, RewriteNode(table, tasks, nodes[i]))
    {
      RewrittenIsClean(table, tasks, nodes[i]);
    }
  }

  // ---------- nothing but paths changes ----------

  /** A path of the model crate, or the same names with arguments of the same shape. */
  predicate SamePath(p: Path, q: Path)
    decreases p, 1
  {
    ModelPath(q) || SameNames(p, q)
  }

  predicate SameNames(p: Path, q: Path)
    decreases p, 0
  {
    && p.leadingColon == q.leadingColon && |p.segments| == |q.segments|
    && forall i :: 0 <= i < |p.segments| ==>
         p.segments[i].ident == q.segments[i].ident && SameArgs(p.segments[i].args, q.segments[i].args)
  }

  predicate SameArgs(a: Args, b: Args)
    decreases a
  {
    match a
    case NoArgs => b == NoArgs
    case Angle(types) =>
      b.Angle? && |b.types| == |types| && forall i :: 0 <= i < |types| ==> SamePath(types[i], b.types[i])
  }

  /** The same code, but for its paths; plain path expressions keep even their names. */
  predicate SameCodeButPaths(n: Node, m: Node)
    decreases n
  {
    match n
    case Call(func, args) =>
      && m.Call? && SamePath(func, m.func) && |m.args| == |args|
      && forall i :: 0 <= i < |args| ==> SameCodeButPaths(args[i], m.args[i])
    case TypeUse(ty) => m.TypeUse? && SamePath(ty, m.ty)
    case MacroUse(path) => m.MacroUse? && SamePath(path, m.path)
    case PathUse(path) => m.PathUse? && SameNames(path, m.path)
    case Nest(nodes) =>
      && m.Nest? && |m.nodes| == |nodes|
      && forall i :: 0 <= i < |nodes| ==> SameCodeButPaths(nodes[i], m.nodes[i])
  }

  lemma {:induction false} ArgsKeepNames(table: Table, p: Path)
    ensures SameNames(p, OnArgs(p, Rewriter(table)))
    decreases p, 0
  {
    forall i | 0 <= i < |p.segments|
      ensures SameArgs(p.segments[i].args, RewriteArgs(table, p.segments[i].args))
    {
      ArgsKeepShape(table, p.segments[i].args);
    }
  }

  lemma {:induction false} ArgsKeepShape(table: Table, args: Args)
    ensures SameArgs(args, RewriteArgs(table, args))
    decreases args, 0
  {
    if args.Angle? {
      forall i | 0 <= i < |args.types|
        ensures SamePath(args.types[i], RewriteType(table, args.types[i]))
      {
        TypesArePaths(table, args.types[i]);
        PathKeepsShape(table, args.types[i], TypeRule);
      }
    }
  }

  lemma {:induction false} PathKeepsShape(table: Table, p: Path, rules: Rules)
    ensures SamePath(p, RewritePath(table, p, rules))
    decreases p, 1
  {
    var resolved := Canonical(table, OnArgs(p, Rewriter(table))).segments;
    if rules(Heads(resolved)).Some? {
      BuiltIsModelPath(rules(Heads(resolved)).value, resolved);
    } else {
      ArgsKeepNames(table, p);
    }
  }

  lemma {:induction false} CodeKeepsShape(table: Table, tasks: bool, n: Node)
    ensures SameCodeButPaths(n, RewriteNode(table, tasks, n))
    decreases n
  {
    match n
    case Call(func, args) =>
      PathKeepsShape(table, func, CallRules(tasks));
      PartsKeepShape(table, tasks, args);
    case TypeUse(ty) =>
      TypesArePaths(table, ty);
      PathKeepsShape(table, ty, TypeRule);
    case MacroUse(path) =>
      PathKeepsShape(table, path, MacroRule);
    case PathUse(path) =>
      ArgsKeepNames(table, path);
    case Nest(nodes) =>
      PartsKeepShape(table, tasks, nodes);
  }

  lemma {:induction false} PartsKeepShape(table: Table, tasks: bool, nodes: seq<Node>)
    ensures forall i :: 0 <= i < |nodes| ==> SameCodeButPaths(nodes[i], RewriteNode(table, tasks, nodes[i]))
    decreases nodes
  {
    forall i | 0 <= i < |nodes|
      ensures SameCodeButPaths(nodes[i], RewriteNode(table, tasks, nodes[i]))
    {
      CodeKeepsShape(table, tasks, nodes[i]);
    }
  }

  // ---------- functions and modules ----------

  /** A statement's code raises the marker. */
  ghost predicate Raises(table: Table, tasks: bool, s: Stmt, m: Unmodeled) {
    CodeOf(s).Some? && m in NodeMarkers(table, tasks, CodeOf(s).value)
  }

  /** The code of a statement, if it has any. */
  function CodeOf(s: Stmt): Option<Node> {
    match s
    case ItemStmt(_, code) => Some(code)
    case CodeStmt(code) => Some(code)
    case _ => None
  }

  /** `m` is `n`, rewritten as far as there are models. */
  predicate Done(table: Table, tasks: bool, n: Node, m: Node) {
    SameCodeButPaths(n, m) && Clean(table, tasks, m)
  }

  predicate StmtDone(table: Table, tasks: bool, s: Stmt, t: Stmt) {
    match s
    case UseStmt(_) => t == s
    case MarkerStmt(_) => t == s
    case ItemStmt(name, code) => t.ItemStmt? && t.name == name && Done(table, tasks, code, t.code)
    case CodeStmt(code) => t.CodeStmt? && Done(table, tasks, code, t.code)
  }

  /** A marker is raised somewhere in the function, in its signature or in a statement. */
  ghost predicate Raised(table: Table, tasks: bool, f: Item, m: Unmodeled)
    requires f.FnItem?
  {
    || m in NodeMarkers(table, tasks, f.signature)
    || exists i :: 0 <= i < |f.body| && Raises(table, tasks, f.body[i], m)
  }

  /** Where a primitive's marker stands among the others. */
  function Rank(m: Unmodeled): nat {
    match m
    case UCondvar => 0
    case UAtomic => 1
    case UChannel => 2
    case UTokioSpawn => 3
    case UTokioTime => 4
    case UArcSwap => 5
  }

  predicate Ranked(markers: seq<Stmt>) {
    && (forall i :: 0 <= i < |markers| ==> markers[i].MarkerStmt?)
    && forall i, j :: 0 <= i < j < |markers| ==> Rank(markers[i].marker) < Rank(markers[j].marker)
  }

  lemma {:induction false} InjectedAreRanked(order: seq<Unmodeled>, seen: set<Unmodeled>)
    requires forall i, j :: 0 <= i < j < |order| ==> Rank(order[i]) < Rank(order[j])
    ensures Ranked(Injected(order, seen))
    ensures forall i :: 0 <= i < |Injected(order, seen)| ==>
              Injected(order, seen)[i].MarkerStmt? && Injected(order, seen)[i].marker in order
    decreases |order|
  {
    if order != [] {
      InjectedAreRanked(order[1..], seen);
      assert order == [order[0]] + order[1..];
      assert forall m :: m in order[1..] ==> Rank(order[0]) < Rank(m);
    }
  }

  /** In rank order, one marker for each primitive raised, and no other. */
  ghost predicate MarkersDone(table: Table, tasks: bool, f: Item, markers: seq<Stmt>)
    requires f.FnItem?
  {
    && Ranked(markers)
    && (forall i :: 0 <= i < |markers| ==> Raised(table, tasks, f, markers[i].marker))
    && (forall m :: Raised(table, tasks, f, m) ==> multiset(markers)[MarkerStmt(m)] == 1)
  }

  /** The first `k` statements of the new body are its markers; the rest are the statements of
      the old one, in order and rewritten. */
  ghost predicate BodyDone(table: Table, tasks: bool, f: Item, body: seq<Stmt>, k: nat)
    requires f.FnItem?
  {
    && |body| == k + |f.body| && MarkersDone(table, tasks, f, body[..k])
    && (forall i :: 0 <= i < |f.body| ==> StmtDone(table, tasks, f.body[i], body[k + i]))
  }

  ghost predicate ItemDone(table: Table, tasks: bool, item: Item, out: Item)
    decreases item, 0
  {
    match item
    case FnItem(name, signature, body) =>
      var own := BodyTable(table, body);
      && out.FnItem? && out.name == name && Done(own, tasks, signature, out.signature)
      && exists k :: BodyDone(own, tasks, item, out.body, k)
    case ModItem(name, items) => out.ModItem? && out.name == name && ModDone(table, tasks, items, out.items)
    case _ => out == item
  }

  ghost predicate ModDone(base: Table, tasks: bool, items: seq<Item>, out: seq<Item>)
    decreases items, 1
  {
    && |out| == |items|
    && forall i :: 0 <= i < |items| ==> ItemDone(ModTable(base, items), tasks, items[i], out[i])
  }

  lemma NodeIsDone(table: Table, tasks: bool, n: Node)
    ensures Done(table, tasks, n, RewriteNode(table, tasks, n))
  {
    CodeKeepsShape(table, tasks, n);
    RewrittenIsClean(table, tasks, n);
  }

  lemma {:induction false} StmtsAreDone(table: Table, tasks: bool, body: seq<Stmt>)
    ensures |RewriteStmts(table, tasks, body)| == |body|
    ensures forall i :: 0 <= i < |body| ==> StmtDone(table, tasks, body[i], RewriteStmts(table, tasks, body)[i])
    decreases |body|
  {
    if body != [] {
      if CodeOf(body[0]).Some? {
        NodeIsDone(table, tasks, CodeOf(body[0]).value);
      }
      StmtsAreDone(table, tasks, body[1..]);
      forall i | 0 <= i < |body|
        ensures StmtDone(table, tasks, body[i], RewriteStmts(table, tasks, body)[i])
      {
        if i > 0 {
          assert body[i] == body[1..][i - 1];
        }
      }
    }
  }

  lemma {:induction false} BodyRaises(table: Table, tasks: bool, body: seq<Stmt>, m: Unmodeled)
    ensures m in BodyMarkers(table, tasks, body) <==>
            exists i :: 0 <= i < |body| && Raises(table, tasks, body[i], m)
    decreases |body|
  {
    if body != [] {
      BodyRaises(table, tasks, body[1..], m);
      if m in BodyMarkers(table, tasks, body[1..]) {
        var i :| 0 <= i < |body[1..]| && Raises(table, tasks, body[1..][i], m);
        assert body[i + 1] == body[1..][i];
      }
      if i :| 0 < i < |body| && Raises(table, tasks, body[i], m) {
        assert body[1..][i - 1] == body[i];
      }
    }
  }

  lemma {:induction false} InjectedAreSeen(order: seq<Unmodeled>, seen: set<Unmodeled>)
    ensures forall i :: 0 <= i < |Injected(order, seen)| ==>
              Injected(order, seen)[i].MarkerStmt? && Injected(order, seen)[i].marker in seen
    decreases |order|
  {
    if order != [] {
      InjectedAreSeen(order[1..], seen);
    }
  }

  function Seen(table: Table, tasks: bool, f: Item): set<Unmodeled>
    requires f.FnItem?
  {
    NodeMarkers(table, tasks, f.signature) + BodyMarkers(table, tasks, f.body)
  }

  lemma SeenIsRaised(table: Table, tasks: bool, f: Item, m: Unmodeled)
    requires f.FnItem?
    ensures m in Seen(table, tasks, f) <==> Raised(table, tasks, f, m)
  {
    BodyRaises(table, tasks, f.body, m);
  }

  lemma MarkersAreDone(table: Table, tasks: bool, f: Item)
    requires f.FnItem?
    ensures MarkersDone(table, tasks, f, InjectedMarkers(Seen(table, tasks, f)))
  {
    var seen := Seen(table, tasks, f);
    InjectedAreSeen(ORDER, seen);
    InjectedAreRanked(ORDER, seen);
    forall m
      ensures m in seen <==> Raised(table, tasks, f, m)
      ensures multiset(InjectedMarkers(seen))[MarkerStmt(m)] == if m in seen then 1 else 0
    {
      SeenIsRaised(table, tasks, f, m);
      ModelLaws.OneMarkerEach(seen, m);
    }
  }

  lemma BodyIsDone(table: Table, tasks: bool, f: Item)
    requires f.FnItem?
    ensures var markers := InjectedMarkers(Seen(table, tasks, f));
            BodyDone(table, tasks, f, markers + RewriteStmts(table, tasks, f.body), |markers|)
  {
    var markers, rest := InjectedMarkers(Seen(table, tasks, f)), RewriteStmts(table, tasks, f.body);
    StmtsAreDone(table, tasks, f.body);
    MarkersAreDone(table, tasks, f);
    assert (markers + rest)[..|markers|] == markers;
  }

  lemma FnIsDone(base: Table, tasks: bool, f: Item)
    requires f.FnItem?
    ensures ItemDone(base, tasks, f, RewriteFn(base, tasks, f))
  {
    var table := BodyTable(base, f.body);
    NodeIsDone(table, tasks, f.signature);
    BodyIsDone(table, tasks, f);
    assert BodyDone(table, tasks, f, RewriteFn(base, tasks, f).body, |InjectedMarkers(Seen(table, tasks, f))|);
  }

  /** Rewriting a module, in full: through any nesting every function keeps its name, its
      statements and their order, and loses every path that has a model in its own scope; in
      front of its body stands one marker for each primitive raised in it and no other; every
      other item stays as it is. */
  lemma {:induction false} ModIsDone(base: Table, tasks: bool, items: seq<Item>)
    ensures ModDone(base, tasks, items, RewriteMod(base, tasks, items))
    decreases items, 1
  {
    var table := ModTable(base, items);
    forall i | 0 <= i < |items|
      ensures ItemDone(table, tasks, items[i], RewriteItem(table, tasks, items[i]))
    {
      ItemIsDone(table, tasks, items[i]);
    }
  }

  lemma {:induction false} ItemIsDone(table: Table, tasks: bool, item: Item)
    ensures ItemDone(table, tasks, item, RewriteItem(table, tasks, item))
    decreases item, 0
  {
    match item
    case FnItem(_, _, _) => FnIsDone(table, tasks, item);
    case ModItem(_, items) => ModIsDone(table, tasks, items);
    case _ =>
  }

  /** A function that gets no marker has only modelled calls and types, in its signature and in
      every statement. */
  lemma UnmarkedFnIsModelled(base: Table, tasks: bool, f: Item)
    requires f.FnItem? && RewriteFn(base, tasks, f).body == RewriteStmts(BodyTable(base, f.body), tasks, f.body)
    ensures var table := BodyTable(base, f.body);
            && ModelHonesty.HonestCode(table, RewriteFn(base, tasks, f).signature, false)
            && forall i :: 0 <= i < |f.body| && CodeOf(f.body[i]).Some? ==>
                 ModelHonesty.HonestCode(table, RewriteNode(table, tasks, CodeOf(f.body[i]).value), false)
  {
    var table := BodyTable(base, f.body);
    var seen := NodeMarkers(table, tasks, f.signature) + BodyMarkers(table, tasks, f.body);
    assert InjectedMarkers(seen) == [] by {
      assert |InjectedMarkers(seen) + RewriteStmts(table, tasks, f.body)| == |RewriteStmts(table, tasks, f.body)|;
    }
    assert seen == {} by {
      forall m
        ensures m !in seen
      {
        ModelLaws.OneMarkerEach(seen, m);
      }
    }
    ModelHonesty.CallsAndTypesAreModelled(table, tasks, f.signature);
    forall i | 0 <= i < |f.body| && CodeOf(f.body[i]).Some?
      ensures ModelHonesty.HonestCode(table, RewriteNode(table, tasks, CodeOf(f.body[i]).value), false)
    {
      assert NodeMarkers(table, tasks, CodeOf(f.body[i]).value) == {} by {
        forall m
          ensures m !in NodeMarkers(table, tasks, CodeOf(f.body[i]).value)
        {
          BodyRaises(table, tasks, f.body, m);
          assert Raises(table, tasks, f.body[i], m) ==> m in seen;
        }
      }
      ModelHonesty.CallsAndTypesAreModelled(table, tasks, CodeOf(f.body[i]).value);
    }
  }

  // ---------- what a scope declares ----------

  /** The names that can shadow a scope's own aliases: those of its functions, modules and other
      named items; `use` declarations and nameless items declare none. */
  lemma {:induction false} ItemNamesAre(items: seq<Item>, x: Ident)
    ensures x in ItemNames(items) <==>
            exists i :: 0 <= i < |items| &&
              match items[i]
              case UseItem(_) => false
              case FnItem(name, _, _) => name == x
              case ModItem(name, _) => name == x
              case OtherItem(name) => name == Some(x)
    decreases |items|
  {
    if items != [] {
      ItemNamesAre(items[1..], x);
      assert items == [items[0]] + items[1..];
    }
  }

  lemma {:induction false} StmtNamesAre(body: seq<Stmt>, x: Ident)
    ensures x in StmtNames(body) <==> exists i :: 0 <= i < |body| && body[i].ItemStmt? && body[i].name == Some(x)
    decreases |body|
  {
    if body != [] {
      StmtNamesAre(body[1..], x);
      assert body == [body[0]] + body[1..];
    }
  }

  /** And its `use` declarations, each in its place. */
  lemma {:induction false} UsesAreInOrder(a: seq<Item>, tree: UseTree, b: seq<Item>)
    ensures ItemUses(a + [UseItem(tree)] + b) == ItemUses(a) + [tree] + ItemUses(b)
    decreases |a|
  {
    if a == [] {
      assert a + [UseItem(tree)] + b == [UseItem(tree)] + b;
      assert ([UseItem(tree)] + b)[1..] == b;
    } else {
      assert (a + [UseItem(tree)] + b)[1..] == a[1..] + [UseItem(tree)] + b;
      UsesAreInOrder(a[1..], tree, b);
    }
  }

  lemma {:induction false} StmtUsesAreInOrder(a: seq<Stmt>, tree: UseTree, b: seq<Stmt>)
    ensures StmtUses(a + [UseStmt(tree)] + b) == StmtUses(a) + [tree] + StmtUses(b)
    decreases |a|
  {
    if a == [] {
      assert a + [UseStmt(tree)] + b == [UseStmt(tree)] + b;
      assert ([UseStmt(tree)] + b)[1..] == b;
    } else {
      assert (a + [UseStmt(tree)] + b)[1..] == a[1..] + [UseStmt(tree)] + b;
      StmtUsesAreInOrder(a[1..], tree, b);
    }
  }

}
