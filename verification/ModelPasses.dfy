/** Rewriting in more than one pass: a second pass over rewritten code, and the separate first
    pass over discarded spawns. */
module ModelPasses {

  import opened Options
  import opened RustSyntax
  import opened UseAliases
  import opened ModelRewrite
  import opened ModelResolution
  import opened ModelScopes

  // ---------- a second pass ----------

  lemma ReplaceTwice(table: Table, p: Path, rules: Rules)
    requires Spares(rules)
    ensures Replace(table, Replace(table, p, rules), rules) == Replace(table, p, rules)
  {
    var resolved := Canonical(table, p);
    var found := rules(Heads(resolved.segments));
    if found.Some? {
      BuiltIsModelPath(found.value, resolved.segments);
      ModelPathStays(table, Build(found.value, resolved.segments), rules);
    }
  }

  /** Every argument list of the path is left alone by `f`. */
  ghost predicate Fixed(segs: seq<Segment>, f: Args -> Args) {
    forall i :: 0 <= i < |segs| ==> f(segs[i].args) == segs[i].args
  }

  lemma FixedOnArgs(p: Path, f: Args -> Args)
    requires Fixed(p.segments, f)
    ensures OnArgs(p, f) == p
  {
    assert OnArgs(p, f).segments == p.segments;
  }

  lemma ReplaceKeepsFixed(table: Table, p: Path, rules: Rules, f: Args -> Args)
    requires Fixed(p.segments, f) && f(NoArgs) == NoArgs
    ensures Fixed(Replace(table, p, rules).segments, f)
  {
    CanonicalOnArgs(table, p, f);
    FixedOnArgs(p, f);
    var resolved := Canonical(table, p);
    var found := rules(Heads(resolved.segments));
    if found.Some? {
      BuildOnArgs(found.value, resolved.segments, f);
      assert MapArgs(resolved.segments, f) == resolved.segments;
      var b := Build(found.value, resolved.segments);
      assert OnArgs(b, f) == b;
      forall i | 0 <= i < |b.segments|
        ensures f(b.segments[i].args) == b.segments[i].args
      {
        assert OnArgs(b, f).segments[i] == b.segments[i];
      }
    }
  }

  lemma {:induction false} PathTwice(table: Table, p: Path, rules: Rules)
    requires Spares(rules)
    ensures RewritePath(table, RewritePath(table, p, rules), rules) == RewritePath(table, p, rules)
    decreases p, 0
  {
    var r := Rewriter(table);
    var p1 := OnArgs(p, r);
    forall i | 0 <= i < |p.segments|
      ensures r(r(p.segments[i].args)) == r(p.segments[i].args)
    {
      ArgsTwice(table, p.segments[i].args);
    }
    assert Fixed(p1.segments, r);
    ReplaceKeepsFixed(table, p1, rules, r);
    FixedOnArgs(Replace(table, p1, rules), r);
    ReplaceTwice(table, p1, rules);
  }

  lemma {:induction false} ArgsTwice(table: Table, args: Args)
    ensures RewriteArgs(table, RewriteArgs(table, args)) == RewriteArgs(table, args)
    decreases args, 0
  {
    if args.Angle? {
      var types := args.types;
      TypeRuleSpares();
      forall i | 0 <= i < |types|
        ensures RewriteType(table, RewriteType(table, types[i])) == RewriteType(table, types[i])
      {
        TypesArePaths(table, types[i]);
        TypesArePaths(table, RewriteType(table, types[i]));
        PathTwice(table, types[i], TypeRule);
      }
      assert RewriteArgs(table, RewriteArgs(table, args)).types == RewriteArgs(table, args).types;
    }
  }

  /** Rewriting code that was rewritten already changes nothing, whatever the aliases. */
  lemma {:induction false} NodeTwice(table: Table, tasks: bool, n: Node)
    ensures RewriteNode(table, tasks, RewriteNode(table, tasks, n)) == RewriteNode(table, tasks, n)
    decreases n
  {
    OtherRulesSpare();
    match n
    case Call(func, args) =>
      CallRulesSpare(tasks);
      PathTwice(table, func, CallRules(tasks));
      NodesTwice(table, tasks, args);
      var r := RewriteNode(table, tasks, n);
      assert RewriteNode(table, tasks, r).args == r.args;
    case TypeUse(ty) =>
      TypeRuleSpares();
      TypesArePaths(table, ty);
      TypesArePaths(table, RewriteType(table, ty));
      PathTwice(table, ty, TypeRule);
    case MacroUse(path) =>
      PathTwice(table, path, MacroRule);
    case PathUse(path) =>
      PathTwice(table, path, NoRule);
    case Nest(nodes) =>
      NodesTwice(table, tasks, nodes);
      var r := RewriteNode(table, tasks, n);
      assert RewriteNode(table, tasks, r).nodes == r.nodes;
  }

  lemma {:induction false} NodesTwice(table: Table, tasks: bool, nodes: seq<Node>)
    ensures forall i :: 0 <= i < |nodes| ==>
              RewriteNode(table, tasks, RewriteNode(table, tasks, nodes[i])) == RewriteNode(table, tasks, nodes[i])
    decreases nodes
  {
    forall i | 0 <= i < |nodes|
      ensures RewriteNode(table, tasks, RewriteNode(table, tasks, nodes[i])) == RewriteNode(table, tasks, nodes[i])
    {
      NodeTwice(table, tasks, nodes[i]);
    }
  }

  // ---------- the separate pass over discarded spawns ----------

  function SpawnRule(h: seq<Head>): Option<Rule> {
    if IsTokioSpawn(h) then Some(Rule([spawn_task], None, None)) else None
  }

  /** In tasks mode a statement's own spawn is replaced before the statement is visited. The
      visit then leaves it as it is, so the call is the same as without the extra pass. */
  lemma SpawnPassIsRedundant(table: Table, p: Path)
    ensures Replace(table, Replace(table, p, SpawnRule), CallRules(true)) == Replace(table, p, CallRules(true))
  {
    CallRulesSpare(true);
    if IsTokioSpawn(Heads(Canonical(table, p).segments)) {
      var rule, segs := Rule([spawn_task], None, None), Canonical(table, p).segments;
      BuiltIsModelPath(rule, segs);
      ModelPathStays(table, Build(rule, segs), CallRules(true));
    }
  }

  function SpawnTaskPath(): Path {
    Path(true, [Plain(laplace_sdk), Plain(rt), Plain(spawn_task)])
  }

  lemma SpawnTaskBuilt(segs: seq<Segment>)
    ensures Build(Rule([spawn_task], None, None), segs) == SpawnTaskPath()
  {
    assert Build(Rule([spawn_task], None, None), segs).segments == SpawnTaskPath().segments;
  }

  lemma SpawnTaskIsSilent(h: seq<Head>)
    requires |h| == 3 && h[0].ident == laplace_sdk && h[1].ident == rt && h[2].ident == spawn_task
    ensures Classify(h) == None
  {
    assert forall x :: Mentions(h, x) ==> x == laplace_sdk || x == rt || x == spawn_task;
  }

  /** Its markers are the same too, exactly unless it replaced something while the name
      `laplace_sdk` stands for a path that raises one. */
  lemma SpawnPassMarkers(table: Table, p: Path)
    requires AllTokio(table)
    ensures var q := Replace(table, p, SpawnRule);
            OwnMarkers(table, q, CallRules(true)) == OwnMarkers(table, p, CallRules(true)) <==>
            !IsTokioSpawn(Heads(Canonical(table, p).segments)) || MarkersFit(table, false)
  {
    if IsTokioSpawn(Heads(Canonical(table, p).segments)) {
      SpawnTaskBuilt(Canonical(table, p).segments);
      SpawnTaskMarks(table);
    }
  }

  lemma SpawnTaskMarks(table: Table)
    requires AllTokio(table)
    ensures OwnMarkers(table, SpawnTaskPath(), CallRules(true)) == {} <==> MarkersFit(table, false)
  {
    if laplace_sdk in table {
      SpawnTaskAliased(table, table[laplace_sdk]);
    } else {
      SpawnTaskUnaliased(table);
    }
  }

  lemma SpawnTaskUnaliased(table: Table)
    requires laplace_sdk !in table
    ensures OwnMarkers(table, SpawnTaskPath(), CallRules(true)) == {}
  {
    var h := Heads(SpawnTaskPath().segments);
    assert h[0].ident == laplace_sdk && h[1].ident == rt && h[2].ident == spawn_task;
    SpawnTaskIsSilent(h);
  }

  /** Behind an alias, `rt::spawn_task` is marked iff `rt` alone would be. */
  lemma SpawnTaskAliased(table: Table, alias: seq<Ident>)
    requires AllTokio(table) && laplace_sdk in table && alias == table[laplace_sdk]
    ensures OwnMarkers(table, SpawnTaskPath(), CallRules(true)) == {} <==> Quiet(alias)
  {
    if Quiet(alias) {
      CallRulesSpare(true);
      QuietAliasMarks(table, SpawnTaskPath(), CallRules(true));
      SpawnTaskUnaliased(map[]);
    } else {
      LoudSpawnTask(table, alias);
    }
  }

  lemma AliasedSpawnTask(table: Table, alias: seq<Ident>)
    requires laplace_sdk in table && alias == table[laplace_sdk]
    ensures Heads(Canonical(table, SpawnTaskPath()).segments) == PlainHeads(alias + [rt]) + [Head(spawn_task, true)]
  {
    var q := Canonical(table, SpawnTaskPath()).segments;
    assert forall i :: 0 <= i < |alias| ==> q[i] == Plain(alias[i]);
    assert q[|alias|] == Plain(rt) && q[|alias| + 1] == Plain(spawn_task);
  }

  lemma LoudSpawnTask(table: Table, alias: seq<Ident>)
    requires AllTokio(table) && laplace_sdk in table && alias == table[laplace_sdk] && !Quiet(alias)
    ensures OwnMarkers(table, SpawnTaskPath(), CallRules(true)) != {}
  {
    var g := Heads(Canonical(table, SpawnTaskPath()).segments);
    AliasedSpawnTask(table, alias);
    CallRulesSpare(true);
    SparedRule(CallRules(true), g, |alias|);
    LoudStaysLoud(alias, g);
  }

  lemma LoudStaysLoud(alias: seq<Ident>, g: seq<Head>)
    requires !Quiet(alias) && TokioRooted(alias) && g == PlainHeads(alias + [rt]) + [Head(spawn_task, true)]
    ensures Classify(g) != None
  {
    var plain := PlainHeads(alias + [rt]);
    assert forall i :: 0 <= i < |plain| ==> g[i] == plain[i];
    assert plain[|alias|].ident == rt && plain[0].ident == tokio;
    assert !IsTokioSpawn(plain);
    assert !Named3(plain, tokio, task, spawn_blocking) && !Named3(plain, tokio, task, spawn_local);
  }

  /** Such a path: with `use tokio::sync::mpsc as laplace_sdk`, the pass adds a channel marker. */
  lemma SpawnPassAddsMarker()
    ensures var table: Table := map[laplace_sdk := [tokio, sync, mpsc]];
            var p := Path(false, [Plain(tokio), Plain(spawn)]);
            && OwnMarkers(table, p, CallRules(true)) == {}
            && OwnMarkers(table, Replace(table, p, SpawnRule), CallRules(true)) != {}
  {
    var table: Table, p := map[laplace_sdk := [tokio, sync, mpsc]], Path(false, [Plain(tokio), Plain(spawn)]);
    var h := Heads(Canonical(table, p).segments);
    assert h[0] == Head(tokio, true) && h[1] == Head(spawn, true);
    var plain := PlainHeads([tokio, sync, mpsc] + [rt]);
    assert plain[2].ident == mpsc && Mentions(plain, mpsc);
    assert !Quiet([tokio, sync, mpsc]);
    SpawnPassMarkers(table, p);
  }

}
