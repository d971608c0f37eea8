/** What code is like once it was rewritten without raising a marker: which unmodelled primitives
    can be left in it, and where. */
module ModelHonesty {

  import opened Options
  import opened RustSyntax
  import opened UseAliases
  import opened ModelRewrite
  import opened Scoping
  import opened ModelScopes

  // ---------- paths that are no unmodelled primitive ----------

  /** The path is the model crate's, or none of the primitives that have no model. */
  predicate Honest(table: Table, p: Path) {
    ModelPath(p) || Classify(Heads(Canonical(table, p).segments)) == None
  }

  predicate HonestType(table: Table, p: Path)
    decreases p, 1
  {
    Honest(table, p) && HonestArgs(table, p)
  }

  predicate HonestArgs(table: Table, p: Path)
    decreases p, 0
  {
    forall i :: 0 <= i < |p.segments| ==> HonestArg(table, p.segments[i].args)
  }

  predicate HonestArg(table: Table, args: Args)
    decreases args
  {
    match args
    case NoArgs => true
    case Angle(types) => forall i :: 0 <= i < |types| ==> HonestType(table, types[i])
  }

  /** No path of the code, at any depth, is an unmodelled primitive; plain path expressions and
      macro names are asked about only if it says `everywhere`. */
  predicate HonestCode(table: Table, n: Node, everywhere: bool)
    decreases n
  {
    match n
    case Call(func, args) =>
      && Honest(table, func) && HonestArgs(table, func)
      && forall i :: 0 <= i < |args| ==> HonestCode(table, args[i], everywhere)
    case TypeUse(ty) => HonestType(table, ty)
    case MacroUse(path) => HonestArgs(table, path) && (everywhere ==> Honest(table, path))
    case PathUse(path) => HonestArgs(table, path) && (everywhere ==> Honest(table, path))
    case Nest(nodes) => forall i :: 0 <= i < |nodes| ==> HonestCode(table, nodes[i], everywhere)
  }

  /** No plain path expression of the code, and no macro name without a rule, is one. */
  predicate NothingSilent(table: Table, n: Node)
    decreases n
  {
    match n
    case Call(_, args) => forall i :: 0 <= i < |args| ==> NothingSilent(table, args[i])
    case TypeUse(_) => true
    case MacroUse(path) => MacroRule(Heads(Canonical(table, path).segments)).Some? || Honest(table, path)
    case PathUse(path) => Honest(table, path)
    case Nest(nodes) => forall i :: 0 <= i < |nodes| ==> NothingSilent(table, nodes[i])
  }

  lemma ReplaceKeepsHonestArgs(table: Table, p: Path, rules: Rules)
    requires HonestArgs(table, p)
    ensures HonestArgs(table, Replace(table, p, rules))
  {
    var resolved := Canonical(table, p);
    forall i | 0 <= i < |resolved.segments|
      ensures HonestArg(table, resolved.segments[i].args)
    {
      assert HonestArg(table, NoArgs);
      if p.segments != [] && p.segments[0].ident in table {
        var n := |table[p.segments[0].ident]|;
        assert n > 0 ==> resolved.segments[n - 1].args == p.segments[0].args;
        assert i >= n ==> resolved.segments[i] == p.segments[i - n + 1];
      }
    }
  }

  lemma UnmarkedIsHonest(table: Table, p: Path, rules: Rules)
    requires OwnMarkers(table, p, rules) == {}
    ensures Honest(table, Replace(table, OnArgs(p, Rewriter(table)), rules))
  {
    var r := Rewriter(table);
    CanonicalOnArgs(table, p, r);
    MapKeepsHeads(Canonical(table, p).segments, r);
    var resolved := Canonical(table, OnArgs(p, r));
    var found := rules(Heads(resolved.segments));
    if found.Some? {
      BuiltIsModelPath(found.value, resolved.segments);
    }
  }

  lemma {:induction false} QuietPathIsHonest(table: Table, p: Path, rules: Rules)
    requires PathMarkers(table, p) == {}
    ensures HonestArgs(table, RewritePath(table, p, rules))
    decreases p, 0
  {
    var p1 := OnArgs(p, Rewriter(table));
    forall i | 0 <= i < |p.segments|
      ensures HonestArg(table, p1.segments[i].args)
    {
      forall m
        ensures m !in ArgMarkers(table, p.segments[i].args)
      {
        assert m in ArgMarkers(table, p.segments[i].args) ==> m in PathMarkers(table, p);
      }
      QuietArgIsHonest(table, p.segments[i].args);
    }
    ReplaceKeepsHonestArgs(table, p1, rules);
  }

  lemma {:induction false} QuietArgIsHonest(table: Table, args: Args)
    requires ArgMarkers(table, args) == {}
    ensures HonestArg(table, RewriteArgs(table, args))
    decreases args, 0
  {
    if args.Angle? {
      forall i | 0 <= i < |args.types|
        ensures HonestType(table, RewriteType(table, args.types[i]))
      {
        var ty := args.types[i];
        assert forall m :: m in TypeMarkers(table, ty) ==> m in ArgMarkers(table, args);
        QuietTypeIsHonest(table, ty);
      }
    }
  }

  lemma {:induction false} QuietTypeIsHonest(table: Table, ty: Path)
    requires TypeMarkers(table, ty) == {}
    ensures HonestType(table, RewriteType(table, ty))
    decreases ty, 1
  {
    assert PathMarkers(table, ty) == {} && OwnMarkers(table, ty, TypeRule) == {};
    TypesArePaths(table, ty);
    QuietPathIsHonest(table, ty, TypeRule);
    UnmarkedIsHonest(table, ty, TypeRule);
  }

  /** A path that is not visited is left honest iff it has a rule or was honest. */
  lemma UnvisitedIsHonest(table: Table, p: Path, rules: Rules)
    ensures Honest(table, RewritePath(table, p, rules)) <==>
            rules(Heads(Canonical(table, p).segments)).Some? || Honest(table, p)
  {
    var r := Rewriter(table);
    CanonicalOnArgs(table, p, r);
    MapKeepsHeads(Canonical(table, p).segments, r);
    var resolved := Canonical(table, OnArgs(p, r));
    var found := rules(Heads(resolved.segments));
    if found.Some? {
      BuiltIsModelPath(found.value, resolved.segments);
    }
  }

  /** What is claimed of one piece of code. */
  ghost predicate Claim(table: Table, tasks: bool, n: Node, everywhere: bool) {
    HonestCode(table, RewriteNode(table, tasks, n), everywhere) <==> (everywhere ==> NothingSilent(table, n))
  }

  lemma {:induction false} QuietParts(table: Table, tasks: bool, nodes: seq<Node>, everywhere: bool)
    requires NodeMarkers(table, tasks, Nest(nodes)) == {}
    ensures Claim(table, tasks, Nest(nodes), everywhere)
    decreases nodes, 0
  {
    forall i | 0 <= i < |nodes|
      ensures Claim(table, tasks, nodes[i], everywhere)
    {
      assert forall m :: m in NodeMarkers(table, tasks, nodes[i]) ==> m in NodeMarkers(table, tasks, Nest(nodes));
      NoMarkerMeansModelled(table, tasks, nodes[i], everywhere);
    }
    ClaimParts(table, tasks, nodes, everywhere);
  }

  lemma {:induction false} ClaimParts(table: Table, tasks: bool, nodes: seq<Node>, everywhere: bool)
    requires forall i :: 0 <= i < |nodes| ==> Claim(table, tasks, nodes[i], everywhere)
    ensures Claim(table, tasks, Nest(nodes), everywhere)
  {
    var rewritten := RewriteNode(table, tasks, Nest(nodes)).nodes;
    assert forall i :: 0 <= i < |nodes| ==>
        Claim(table, tasks, nodes[i], everywhere) && rewritten[i] == RewriteNode(table, tasks, nodes[i]);
    if everywhere && NothingSilent(table, Nest(nodes)) {
      assert forall i :: 0 <= i < |nodes| ==> NothingSilent(table, nodes[i]);
    }
    if HonestCode(table, Nest(rewritten), everywhere) {
      assert forall i :: 0 <= i < |nodes| ==> HonestCode(table, rewritten[i], everywhere);
    }
  }

  lemma CallIsNest(table: Table, func: Path, args: seq<Node>, everywhere: bool)
    ensures NothingSilent(table, Call(func, args)) == NothingSilent(table, Nest(args))
    ensures HonestCode(table, Call(func, args), everywhere) <==>
            Honest(table, func) && HonestArgs(table, func) && HonestCode(table, Nest(args), everywhere)
  {
  }

  lemma RewrittenCall(table: Table, tasks: bool, func: Path, args: seq<Node>)
    ensures RewriteNode(table, tasks, Nest(args)).Nest?
    ensures RewriteNode(table, tasks, Call(func, args)) ==
            Call(RewritePath(table, func, CallRules(tasks)), RewriteNode(table, tasks, Nest(args)).nodes)
  {
  }

  lemma ClaimCall(table: Table, tasks: bool, func: Path, args: seq<Node>, everywhere: bool)
    requires Honest(table, RewritePath(table, func, CallRules(tasks)))
    requires HonestArgs(table, RewritePath(table, func, CallRules(tasks)))
    requires Claim(table, tasks, Nest(args), everywhere)
    ensures Claim(table, tasks, Call(func, args), everywhere)
  {
    RewrittenCall(table, tasks, func, args);
    CallIsNest(table, func, args, everywhere);
    var rewritten := RewriteNode(table, tasks, Nest(args)).nodes;
    CallIsNest(table, RewritePath(table, func, CallRules(tasks)), rewritten, everywhere);
  }

  lemma QuietCallIsHonest(table: Table, tasks: bool, func: Path, args: seq<Node>)
    requires NodeMarkers(table, tasks, Call(func, args)) == {}
    ensures NodeMarkers(table, tasks, Nest(args)) == {}
    ensures Honest(table, RewritePath(table, func, CallRules(tasks)))
    ensures HonestArgs(table, RewritePath(table, func, CallRules(tasks)))
  {
    CallMarkers(table, tasks, func, args);
    QuietPathIsHonest(table, func, CallRules(tasks));
    UnmarkedIsHonest(table, func, CallRules(tasks));
  }

  lemma ClaimMacro(table: Table, tasks: bool, path: Path, everywhere: bool)
    requires PathMarkers(table, path) == {}
    ensures Claim(table, tasks, MacroUse(path), everywhere)
  {
    QuietPathIsHonest(table, path, MacroRule);
    UnvisitedIsHonest(table, path, MacroRule);
  }

  lemma ClaimPath(table: Table, tasks: bool, path: Path, everywhere: bool)
    requires PathMarkers(table, path) == {}
    ensures Claim(table, tasks, PathUse(path), everywhere)
  {
    QuietPathIsHonest(table, path, NoRule);
    UnvisitedIsHonest(table, path, NoRule);
  }

  /** Code that raises no marker holds, once rewritten, no unmodelled primitive in its calls and
      types; and none anywhere iff no plain path expression, and no macro name without a rule,
      was one. */
  lemma {:induction false} NoMarkerMeansModelled(table: Table, tasks: bool, n: Node, everywhere: bool)
    requires NodeMarkers(table, tasks, n) == {}
    ensures Claim(table, tasks, n, everywhere)
    decreases n, 0
  {
    match n
    case Call(func, args) =>
      QuietCallIsHonest(table, tasks, func, args);
      QuietParts(table, tasks, args, everywhere);
      ClaimCall(table, tasks, func, args, everywhere);
    case TypeUse(ty) =>
      QuietTypeIsHonest(table, ty);
    case MacroUse(path) =>
      ClaimMacro(table, tasks, path, everywhere);
    case PathUse(path) =>
      ClaimPath(table, tasks, path, everywhere);
    case Nest(nodes) =>
      QuietParts(table, tasks, nodes, everywhere);
  }

  lemma CallsAndTypesAreModelled(table: Table, tasks: bool, n: Node)
    requires NodeMarkers(table, tasks, n) == {}
    ensures HonestCode(table, RewriteNode(table, tasks, n), false)
  {
    NoMarkerMeansModelled(table, tasks, n, false);
  }

  lemma EverythingIsModelledIff(table: Table, tasks: bool, n: Node)
    requires NodeMarkers(table, tasks, n) == {}
    ensures HonestCode(table, RewriteNode(table, tasks, n), true) <==> NothingSilent(table, n)
  {
    NoMarkerMeansModelled(table, tasks, n, true);
  }

  // ---------- what does pass unmarked ----------

  /** A spawn handed on as a value, as in `iter.map(tokio::spawn)`, is neither rewritten nor marked,
      though it is recognised. */
  lemma SpawnValueIsUnmarked(table: Table, tasks: bool)
    requires tokio !in table
    ensures var p := Path(false, [Plain(tokio), Plain(spawn)]);
            && NodeMarkers(table, tasks, PathUse(p)) == {} && RewriteNode(table, tasks, PathUse(p)) == PathUse(p)
            && Classify(Heads(Canonical(table, p).segments)) == Some(UTokioSpawn)
            && !NothingSilent(table, PathUse(p))
  {
    var p := Path(false, [Plain(tokio), Plain(spawn)]);
    var h := Heads(p.segments);
    assert h[0] == Head(tokio, true) && h[1] == Head(spawn, true);
    assert OnArgs(p, Rewriter(table)).segments == p.segments;
    assert PathMarkers(table, p) == {};
  }

  /** A primitive of std under another name is not recognised at all: after
      `use std::sync::Condvar as C`, which adds no alias, `C::new()` raises no marker. */
  lemma RenamedStdIsUnmarked(base: Table, tasks: bool, c: nat)
    requires Other(c) !in base
    ensures var tree := UsePath(std, UsePath(sync, UseRename(Condvar, Other(c))));
            ScopeTable(base, [tree], []) == base
    ensures var call := Call(Path(false, [Plain(Other(c)), Plain(newName)]), []);
            NodeMarkers(base, tasks, call) == {} && RewriteNode(base, tasks, call) == call
  {
    OtherCrateAddsNothing(base, std, UsePath(sync, UseRename(Condvar, Other(c))), []);
    CallOfUnknown(base, tasks, Path(false, [Plain(Other(c)), Plain(newName)]), c);
  }

  lemma CallOfUnknown(base: Table, tasks: bool, p: Path, c: nat)
    requires Other(c) !in base && p == Path(false, [Plain(Other(c)), Plain(newName)])
    ensures NodeMarkers(base, tasks, Call(p, [])) == {} && RewriteNode(base, tasks, Call(p, [])) == Call(p, [])
  {
    UnknownIsLeft(base, tasks, p, c);
    RewrittenCall(base, tasks, p, []);
    CallMarkers(base, tasks, p, []);
  }

  lemma UnknownIsLeft(base: Table, tasks: bool, p: Path, c: nat)
    requires Other(c) !in base && p == Path(false, [Plain(Other(c)), Plain(newName)])
    ensures RewritePath(base, p, CallRules(tasks)) == p
    ensures OwnMarkers(base, p, CallRules(tasks)) == {} && PathMarkers(base, p) == {}
  {
    UnknownHeads(p, c);
    UnknownHasNoRule(Heads(p.segments), tasks, c);
    UnknownIsUnclassified(Heads(p.segments), c);
    PlainPath(base, p);
  }

  lemma UnknownHeads(p: Path, c: nat)
    requires p == Path(false, [Plain(Other(c)), Plain(newName)])
    ensures Heads(p.segments) == [Head(Other(c), true), Head(newName, true)]
  {
  }

  /** A path without arguments. */
  lemma PlainPath(table: Table, p: Path)
    requires forall i :: 0 <= i < |p.segments| ==> p.segments[i].args == NoArgs
    ensures OnArgs(p, Rewriter(table)) == p && PathMarkers(table, p) == {}
  {
    assert OnArgs(p, Rewriter(table)).segments == p.segments;
  }

  lemma UnknownHasNoRule(h: seq<Head>, tasks: bool, c: nat)
    requires |h| == 2 && h[0] == Head(Other(c), true)
    ensures CallRule(h, tasks) == None
  {
  }

  lemma UnknownIsUnclassified(h: seq<Head>, c: nat)
    requires |h| == 2 && h[0] == Head(Other(c), true) && h[1] == Head(newName, true)
    ensures Classify(h) == None
  {
    assert !Mentions(h, Condvar) && !Mentions(h, mpsc) && !MentionsAtomic(h);
  }

}
