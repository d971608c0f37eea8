/** What the model attribute must replace: every primitive it has a model for, in every spelling
    that names it in full. And what it must mark. */
module ModelCoverage {

  import opened Options
  import opened RustSyntax
  import opened UseAliases
  import opened ModelRewrite
  import opened ModelScopes
  import opened ModelLaws

  /** `crate_::module_::...`, where the crate is no alias. */
  function Full(rooted: bool, crate_: Ident, module_: Ident, rest: seq<Segment>): Path {
    Path(rooted, [Plain(crate_), Plain(module_)] + rest)
  }

  function Modelled(rest: seq<Segment>): Path {
    Path(true, [Plain(laplace_sdk), Plain(rt)] + rest)
  }

  // ---------- paths one rule down ----------

  /** A path found by `rule`, its arguments rewritten first. */
  lemma Found(table: Table, p: Path, rules: Rules, rule: Rule)
    requires p.segments != [] && p.segments[0].ident !in table
    requires rules(Heads(p.segments)) == Some(rule)
    ensures RewritePath(table, p, rules) == Build(rule, MapArgs(p.segments, Rewriter(table)))
  {
    MapKeepsHeads(p.segments, Rewriter(table));
  }

  lemma FullSegments(rooted: bool, crate_: Ident, module_: Ident, rest: seq<Segment>)
    ensures var segs := Full(rooted, crate_, module_, rest).segments;
            && |segs| == 2 + |rest| && segs[0] == Plain(crate_) && segs[1] == Plain(module_)
            && forall i :: 0 <= i < |rest| ==> segs[2 + i] == rest[i]
  {
  }

  lemma HeadAt(segs: seq<Segment>, i: nat)
    requires i < |segs|
    ensures |Heads(segs)| == |segs| && Heads(segs)[i] == Head(segs[i].ident, segs[i].args.NoArgs?)
  {
  }

  lemma FullHeads(rooted: bool, crate_: Ident, module_: Ident, rest: seq<Segment>)
    ensures var p := Full(rooted, crate_, module_, rest);
            var h := Heads(p.segments);
            && |h| == 2 + |rest| && h[0] == Head(crate_, true) && h[1] == Head(module_, true)
            && forall i :: 0 <= i < |rest| ==> h[2 + i] == Head(rest[i].ident, rest[i].args.NoArgs?)
  {
    var segs := Full(rooted, crate_, module_, rest).segments;
    FullSegments(rooted, crate_, module_, rest);
    HeadAt(segs, 0);
    HeadAt(segs, 1);
    forall i | 0 <= i < |rest|
      ensures Heads(segs)[2 + i] == Head(rest[i].ident, rest[i].args.NoArgs?)
    {
      HeadAt(segs, 2 + i);
    }
  }

  /** What the rule carries along is what was written there, rewritten. */
  lemma CarriedAt(rule: Rule, rooted: bool, crate_: Ident, module_: Ident, rest: seq<Segment>, f: Args -> Args, i: nat)
    requires i < |rest| && rule.argsFrom == Some(2 + i)
    ensures CarriedArgs(rule, MapArgs(Full(rooted, crate_, module_, rest).segments, f)) == f(rest[i].args)
  {
    FullSegments(rooted, crate_, module_, rest);
  }

  /** The model of a type or function that keeps its last two names. */
  lemma BuiltTwo(a: Ident, b: Ident, from: Option<nat>, segs: seq<Segment>)
    ensures Build(Rule([a, b], from, None), segs) ==
            Modelled([Plain(a), Segment(b, CarriedArgs(Rule([a, b], from, None), segs))])
  {
    var rule := Rule([a, b], from, None);
    assert Build(rule, segs).segments ==
           Modelled([Plain(a), Segment(b, CarriedArgs(rule, segs))]).segments;
  }

  lemma BuiltOne(a: Ident, from: Option<nat>, segs: seq<Segment>)
    ensures Build(Rule([a], from, None), segs) == Modelled([Segment(a, CarriedArgs(Rule([a], from, None), segs))])
  {
    var rule := Rule([a], from, None);
    assert Build(rule, segs).segments == Modelled([Segment(a, CarriedArgs(rule, segs))]).segments;
  }

  lemma BuiltMethod(a: Ident, func: Ident, segs: seq<Segment>)
    ensures var rule := Rule([a], Some(2), Some(func));
            Build(rule, segs) == Modelled([Segment(a, CarriedArgs(rule, segs)), Plain(func)])
  {
    var rule := Rule([a], Some(2), Some(func));
    assert Build(rule, segs).segments == Modelled([Segment(a, CarriedArgs(rule, segs)), Plain(func)]).segments;
  }

  // ---------- locks ----------

  /** Each lock, and the model named after it. */
  predicate LockModel(crate_: Ident, id: Ident, model: Ident) {
    (crate_ == std || crate_ == tokio) && NamedAfter(model, crate_, id)
  }

  lemma ModelIsTarget(crate_: Ident, id: Ident, model: Ident)
    requires LockModel(crate_, id, model)
    ensures (if crate_ == std then StdTarget(id) else TokioTarget(id)) == Some(model)
  {
    if crate_ == std {
      StdModel(id, model);
    } else {
      TokioModel(id, model);
    }
  }

  lemma StdModel(id: Ident, model: Ident)
    requires NamedAfter(model, std, id)
    ensures StdTarget(id) == Some(model)
  {
    var words := Words(model);
    assert words[0] == AModel && words[1] == Words(id)[0];
    assert |words| == 1 + |Words(id)|;
  }

  lemma TokioModel(id: Ident, model: Ident)
    requires NamedAfter(model, tokio, id)
    ensures TokioTarget(id) == Some(model)
  {
    var words := Words(model);
    assert words[0] == AModel && words[1] == AnAsync && words[2] == Words(id)[0];
    assert |words| == 2 + |Words(id)|;
  }

  /** A lock's type, in full, becomes the model named after it, with its arguments. */
  lemma LockTypesAreModelled(table: Table, rooted: bool, crate_: Ident, id: Ident, model: Ident, args: Args)
    requires LockModel(crate_, id, model) && crate_ !in table
    ensures RewriteType(table, Full(rooted, crate_, sync, [Segment(id, args)])) ==
            Modelled([Segment(model, RewriteArgs(table, args))])
  {
    var p := Full(rooted, crate_, sync, [Segment(id, args)]);
    var rule := Rule([model], Some(2), None);
    FullHeads(rooted, crate_, sync, [Segment(id, args)]);
    ModelIsTarget(crate_, id, model);
    assert TypeRule(Heads(p.segments)) == Some(rule);
    TypesArePaths(table, p);
    Found(table, p, TypeRule, rule);
    BuiltOne(model, Some(2), MapArgs(p.segments, Rewriter(table)));
    CarriedAt(rule, rooted, crate_, sync, [Segment(id, args)], Rewriter(table), 0);
  }

  lemma ConstructorFound(h: seq<Head>, crate_: Ident, id: Ident, model: Ident, func: Ident, tasks: bool)
    requires LockModel(crate_, id, model) && (func == newName || (func == const_new && crate_ == tokio))
    requires |h| == 4 && h[0] == Head(crate_, true) && h[1] == Head(sync, true) && h[2].ident == id
    requires h[3] == Head(func, true)
    ensures CallRule(h, tasks) == Some(Rule([model], Some(2), Some(func)))
  {
    ModelIsTarget(crate_, id, model);
  }

  /** So does its constructor: `new`, and for tokio's also `const_new`. */
  lemma LockConstructorsAreModelled(table: Table, rooted: bool, crate_: Ident, id: Ident, model: Ident, args: Args,
                                    func: Ident, tasks: bool)
    requires LockModel(crate_, id, model) && crate_ !in table
    requires func == newName || (func == const_new && crate_ == tokio)
    ensures RewritePath(table, Full(rooted, crate_, sync, [Segment(id, args), Plain(func)]), CallRules(tasks)) ==
            Modelled([Segment(model, RewriteArgs(table, args)), Plain(func)])
  {
    var rest := [Segment(id, args), Plain(func)];
    var p := Full(rooted, crate_, sync, rest);
    var rule := Rule([model], Some(2), Some(func));
    FullHeads(rooted, crate_, sync, rest);
    ConstructorFound(Heads(p.segments), crate_, id, model, func, tasks);
    Found(table, p, CallRules(tasks), rule);
    BuiltMethod(model, func, MapArgs(p.segments, Rewriter(table)));
    CarriedAt(rule, rooted, crate_, sync, rest, Rewriter(table), 0);
  }

  // ---------- channels ----------

  predicate Channel(module_: Ident) {
    module_ == mpsc || module_ == oneshot || module_ == watch || module_ == broadcast
  }

  /** The two ends of every channel, mpsc's unbounded ends, and watch's `Ref`. */
  predicate ChannelEnd(module_: Ident, ty: Ident) {
    || (Channel(module_) && (ty == Sender || ty == Receiver))
    || (module_ == mpsc && (ty == UnboundedSender || ty == UnboundedReceiver))
    || (module_ == watch && ty == Ref)
  }

  lemma ChannelTypesAreModelled(table: Table, rooted: bool, module_: Ident, ty: Ident, args: Args)
    requires ChannelEnd(module_, ty) && tokio !in table
    ensures RewriteType(table, Full(rooted, tokio, sync, [Plain(module_), Segment(ty, args)])) ==
            Modelled([Plain(module_), Segment(ty, RewriteArgs(table, args))])
  {
    var rest := [Plain(module_), Segment(ty, args)];
    var p := Full(rooted, tokio, sync, rest);
    var rule := Rule([module_, ty], Some(3), None);
    FullHeads(rooted, tokio, sync, rest);
    assert TypeRule(Heads(p.segments)) == Some(rule);
    TypesArePaths(table, p);
    Found(table, p, TypeRule, rule);
    BuiltTwo(module_, ty, Some(3), MapArgs(p.segments, Rewriter(table)));
    CarriedAt(rule, rooted, tokio, sync, rest, Rewriter(table), 1);
  }

  lemma ChannelConstructorsAreModelled(table: Table, rooted: bool, module_: Ident, func: Ident, args: Args, tasks: bool)
    requires tokio !in table
    requires (Channel(module_) && func == channel) || (module_ == mpsc && func == unbounded_channel)
    ensures RewritePath(table, Full(rooted, tokio, sync, [Plain(module_), Segment(func, args)]), CallRules(tasks)) ==
            Modelled([Plain(module_), Segment(func, RewriteArgs(table, args))])
  {
    var rest := [Plain(module_), Segment(func, args)];
    var p := Full(rooted, tokio, sync, rest);
    var rule := Rule([module_, func], Some(3), None);
    FullHeads(rooted, tokio, sync, rest);
    assert CallRule(Heads(p.segments), tasks) == Some(rule);
    Found(table, p, CallRules(tasks), rule);
    BuiltTwo(module_, func, Some(3), MapArgs(p.segments, Rewriter(table)));
    CarriedAt(rule, rooted, tokio, sync, rest, Rewriter(table), 1);
  }

  // ---------- time ----------

  lemma TimersAreModelled(table: Table, rooted: bool, ty: Ident, args: Args)
    requires tokio !in table && (ty == Sleep || ty == Timeout || ty == Interval)
    ensures RewriteType(table, Full(rooted, tokio, time, [Segment(ty, args)])) ==
            Modelled([Plain(time), Segment(ty, RewriteArgs(table, args))])
  {
    var rest := [Segment(ty, args)];
    var p := Full(rooted, tokio, time, rest);
    var rule := Rule([time, ty], Some(2), None);
    FullHeads(rooted, tokio, time, rest);
    assert TypeRule(Heads(p.segments)) == Some(rule);
    TypesArePaths(table, p);
    Found(table, p, TypeRule, rule);
    BuiltTwo(time, ty, Some(2), MapArgs(p.segments, Rewriter(table)));
    CarriedAt(rule, rooted, tokio, time, rest, Rewriter(table), 0);
  }

  lemma TimerCallsAreModelled(table: Table, rooted: bool, func: Ident, tasks: bool)
    requires tokio !in table && (func == sleep || func == timeout || func == interval)
    ensures RewritePath(table, Full(rooted, tokio, time, [Plain(func)]), CallRules(tasks)) ==
            Modelled([Plain(time), Plain(func)])
  {
    var p := Full(rooted, tokio, time, [Plain(func)]);
    var rule := Rule([time, func], None, None);
    FullHeads(rooted, tokio, time, [Plain(func)]);
    assert CallRule(Heads(p.segments), tasks) == Some(rule);
    Found(table, p, CallRules(tasks), rule);
    BuiltTwo(time, func, None, MapArgs(p.segments, Rewriter(table)));
  }

  // ---------- spawns and select ----------

  /** `std::thread::spawn`, `thread::spawn`, and in tasks mode `tokio::spawn` and
      `tokio::task::spawn`. */
  lemma SpawnsAreModelled(table: Table, rooted: bool, tasks: bool)
    ensures std !in table ==>
              RewritePath(table, Full(rooted, std, thread, [Plain(spawn)]), CallRules(tasks)) ==
              Modelled([Plain(spawn)])
    ensures thread !in table ==>
              RewritePath(table, Full(rooted, thread, spawn, []), CallRules(tasks)) == Modelled([Plain(spawn)])
    ensures tokio !in table && tasks ==>
              && RewritePath(table, Full(rooted, tokio, spawn, []), CallRules(tasks)) == Modelled([Plain(spawn_task)])
              && RewritePath(table, Full(rooted, tokio, task, [Plain(spawn)]), CallRules(tasks)) ==
                 Modelled([Plain(spawn_task)])
  {
    if std !in table {
      SpawnIsModelled(table, rooted, std, thread, [Plain(spawn)], tasks, spawn);
    }
    if thread !in table {
      SpawnIsModelled(table, rooted, thread, spawn, [], tasks, spawn);
    }
    if tokio !in table && tasks {
      SpawnIsModelled(table, rooted, tokio, spawn, [], tasks, spawn_task);
      SpawnIsModelled(table, rooted, tokio, task, [Plain(spawn)], tasks, spawn_task);
    }
  }

  lemma SpawnIsModelled(table: Table, rooted: bool, crate_: Ident, module_: Ident, rest: seq<Segment>, tasks: bool,
                        name: Ident)
    requires crate_ !in table
    requires || (name == spawn && crate_ == std && module_ == thread && rest == [Plain(spawn)])
             || (name == spawn && crate_ == thread && module_ == spawn && rest == [])
             || (tasks && name == spawn_task && crate_ == tokio && module_ == spawn && rest == [])
             || (tasks && name == spawn_task && crate_ == tokio && module_ == task && rest == [Plain(spawn)])
    ensures RewritePath(table, Full(rooted, crate_, module_, rest), CallRules(tasks)) == Modelled([Plain(name)])
  {
    var p := Full(rooted, crate_, module_, rest);
    FullHeads(rooted, crate_, module_, rest);
    var h := Heads(p.segments);
    assert rest != [] ==> h[2] == Head(spawn, true);
    assert CallRule(h, tasks) == Some(Rule([name], None, None));
    Found(table, p, CallRules(tasks), Rule([name], None, None));
    BuiltOne(name, None, MapArgs(p.segments, Rewriter(table)));
  }

  lemma SelectIsModelled(table: Table, rooted: bool)
    requires tokio !in table
    ensures RewritePath(table, Full(rooted, tokio, select, []), MacroRule) == Modelled([Plain(laplace_select)])
  {
    var p := Full(rooted, tokio, select, []);
    FullHeads(rooted, tokio, select, []);
    assert MacroRule(Heads(p.segments)) == Some(Rule([laplace_select], None, None));
    Found(table, p, MacroRule, Rule([laplace_select], None, None));
    BuiltOne(laplace_select, None, MapArgs(p.segments, Rewriter(table)));
  }

  // ---------- what must be marked ----------

  /** A call or type that no rule takes raises a marker if it starts at tokio's other timers,
      tokio's spawns, or the arc-swap family, and otherwise if it mentions a condition variable,
      an mpsc channel, or an atomic, in this order. */
  lemma MarkedFor(table: Table, p: Path, rules: Rules, h: seq<Head>)
    requires h == Heads(Canonical(table, p).segments) && rules(h) == None
    ensures |h| >= 3 && h[0] == Head(tokio, true) && h[1] == Head(time, true)
            && h[2].ident in {Instant, sleep_until, interval_at, timeout_at, advance, pause, resume} ==>
              OwnMarkers(table, p, rules) == {UTokioTime}
    ensures h == [Head(tokio, true), Head(spawn, true)]
            || h == [Head(tokio, true), Head(task, true), Head(spawn, true)]
            || h == [Head(tokio, true), Head(task, true), Head(spawn_blocking, true)]
            || h == [Head(tokio, true), Head(task, true), Head(spawn_local, true)] ==>
              OwnMarkers(table, p, rules) == {UTokioSpawn}
    ensures |h| >= 1 && h[0].ident in {arc_swap, ArcSwap, ArcSwapOption, ArcSwapAny, ArcSwapWeak} ==>
              OwnMarkers(table, p, rules) == {UArcSwap}
  {
  }

  /** A path below another module of std, or tokio's channels that have no model. */
  lemma MarkedByMention(table: Table, p: Path, rules: Rules, h: seq<Head>, i: nat)
    requires h == Heads(Canonical(table, p).segments) && rules(h) == None && i < |h|
    requires h[0].ident == std || (|h| >= 2 && h[0].ident == tokio && h[1].ident == sync)
    ensures h[i].ident == Condvar ==> OwnMarkers(table, p, rules) == {UCondvar}
    ensures h[i].ident == mpsc && (forall j :: 0 <= j < |h| ==> h[j].ident != Condvar) ==>
              OwnMarkers(table, p, rules) == {UChannel}
    ensures (h[i].ident == atomic || h[i].ident.Atomic?)
            && (forall j :: 0 <= j < |h| ==> h[j].ident != Condvar && h[j].ident != mpsc) ==>
              OwnMarkers(table, p, rules) == {UAtomic}
  {
  }

}
