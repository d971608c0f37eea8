/** What the rewrite tables keep, whatever they list: names follow one pattern, generic arguments
    survive, different primitives stay different, and each marker is injected once. */
module ModelLaws {

  import opened Options
  import opened RustSyntax
  import opened UseAliases
  import opened ModelRewrite
  import opened ModelScopes

  // ---------- names ----------

  /** The names a rule writes below `::laplace_sdk::rt`, the method included. */
  function FlatNames(rule: Rule): seq<Ident> {
    rule.names + if rule.method_.Some? then [rule.method_.value] else []
  }

  datatype Word = AModel | AnAsync | AMutex | AnRw | ALock | ASemaphore | ANotify

  /** The words the names of the locks and their models are made of. */
  function Words(id: Ident): seq<Word> {
    match id
    case Mutex => [AMutex]
    case RwLock => [AnRw, ALock]
    case Semaphore => [ASemaphore]
    case Notify => [ANotify]
    case ModelMutex => [AModel, AMutex]
    case ModelRwLock => [AModel, AnRw, ALock]
    case ModelAsyncMutex => [AModel, AnAsync, AMutex]
    case ModelAsyncRwLock => [AModel, AnAsync, AnRw, ALock]
    case ModelAsyncSemaphore => [AModel, AnAsync, ASemaphore]
    case ModelAsyncNotify => [AModel, AnAsync, ANotify]
    case _ => []
  }

  function Prefix(crate_: Ident): seq<Word> {
    if crate_ == tokio then [AModel, AnAsync] else [AModel]
  }

  predicate Lock(id: Ident) {
    id == Mutex || id == RwLock || id == Semaphore || id == Notify
  }

  /** `model` is named after the lock `id`: `Model`, then `Async` for a tokio one, then its name. */
  predicate NamedAfter(model: Ident, crate_: Ident, id: Ident) {
    Lock(id) && Words(model) == Prefix(crate_) + Words(id)
  }

  lemma StdTargetNamed(id: Ident)
    requires StdTarget(id).Some?
    ensures NamedAfter(StdTarget(id).value, std, id)
  {
  }

  lemma TokioTargetNamed(id: Ident)
    requires TokioTarget(id).Some?
    ensures NamedAfter(TokioTarget(id).value, tokio, id)
  {
  }

  lemma TargetsAreNamedAfter(id: Ident)
    ensures StdTarget(id).Some? ==> NamedAfter(StdTarget(id).value, std, id)
    ensures TokioTarget(id).Some? ==> NamedAfter(TokioTarget(id).value, tokio, id)
  {
    if StdTarget(id).Some? {
      StdTargetNamed(id);
    }
    if TokioTarget(id).Some? {
      TokioTargetNamed(id);
    }
  }

  lemma PrefixTells(model: Ident, crate_: Ident, id: Ident)
    requires NamedAfter(model, crate_, id)
    ensures |Words(model)| > 1 && (Words(model)[1] == AnAsync <==> crate_ == tokio)
  {
  }

  lemma LocksDiffer(id: Ident, id2: Ident)
    requires Lock(id) && Lock(id2) && Words(id) == Words(id2)
    ensures id == id2
  {
    assert Words(id)[0] == Words(id2)[0];
  }

  /** A model's name tells the crate and the lock. */
  lemma NameTells(model: Ident, crate_: Ident, id: Ident, crate2: Ident, id2: Ident)
    requires NamedAfter(model, crate_, id) && NamedAfter(model, crate2, id2)
    ensures id == id2 && (crate_ == tokio <==> crate2 == tokio)
  {
    PrefixTells(model, crate_, id);
    PrefixTells(model, crate2, id2);
    var n, words := |Prefix(crate_)|, Words(model);
    assert words[n..] == Words(id) && words[n..] == Words(id2);
    LocksDiffer(id, id2);
  }

  /** A model type keeps the last two names of the type it stands for, or, for a lock, is named
      after it. */
  lemma TypeNamesFollowSource(h: seq<Head>)
    requires TypeRule(h).Some?
    ensures var names := FlatNames(TypeRule(h).value);
            || names == [h[|h| - 2].ident, h[|h| - 1].ident]
            || (|names| == 1 && NamedAfter(names[0], h[0].ident, h[|h| - 1].ident))
  {
    TargetsAreNamedAfter(h[2].ident);
  }

  /** So does a model function: a constructor keeps its own name behind that of its type; a
      spawn becomes one of the two spawns. */
  lemma CallNamesFollowSource(h: seq<Head>, tasks: bool)
    requires CallRule(h, tasks).Some?
    ensures var names := FlatNames(CallRule(h, tasks).value);
            || names == [h[|h| - 2].ident, h[|h| - 1].ident]
            || (|names| == 2 && NamedAfter(names[0], h[0].ident, h[|h| - 2].ident) && names[1] == h[|h| - 1].ident)
            || (h[|h| - 1].ident == spawn && names == [if h[0].ident == tokio then spawn_task else spawn])
  {
    if |h| == 4 {
      TargetsAreNamedAfter(h[2].ident);
    }
  }

  // ---------- generic arguments ----------

  /** Argument lists, in order. */
  function ArgLists(segs: seq<Segment>): seq<Args> {
    if segs == [] then [] else One(segs[0].args) + ArgLists(segs[1..])
  }

  function One(args: Args): seq<Args> {
    if args == NoArgs then [] else [args]
  }

  lemma {:induction false} PlainBut(segs: seq<Segment>, k: nat)
    requires k < |segs| && forall i :: 0 <= i < |segs| && i != k ==> segs[i].args == NoArgs
    ensures ArgLists(segs) == One(segs[k].args)
    decreases |segs|
  {
    if k > 0 {
      PlainBut(segs[1..], k - 1);
    } else {
      AllArgsPlain(segs[1..]);
    }
  }

  lemma {:induction false} AllArgsPlain(segs: seq<Segment>)
    requires forall i :: 0 <= i < |segs| ==> segs[i].args == NoArgs
    ensures ArgLists(segs) == []
    decreases |segs|
  {
    if segs != [] {
      AllArgsPlain(segs[1..]);
    }
  }

  /** A rule takes its arguments from the only place they can be. */
  ghost predicate Carries(rule: Rule, h: seq<Head>) {
    && rule.names != []
    && (rule.argsFrom.Some? ==> rule.argsFrom.value < |h|)
    && forall i :: 0 <= i < |h| && rule.argsFrom != Some(i) ==> h[i].plain
  }

  ghost predicate AllCarry(rules: Rules) {
    forall h :: rules(h).Some? ==> Carries(rules(h).value, h)
  }

  lemma TypeRuleCarries(h: seq<Head>)
    requires TypeRule(h).Some?
    ensures Carries(TypeRule(h).value, h)
  {
  }

  lemma CallRuleCarries(h: seq<Head>, tasks: bool)
    requires CallRule(h, tasks).Some?
    ensures Carries(CallRule(h, tasks).value, h)
  {
  }

  lemma RulesCarry(tasks: bool)
    ensures AllCarry(TypeRule) && AllCarry(CallRules(tasks)) && AllCarry(MacroRule) && AllCarry(NoRule)
  {
    forall h: seq<Head> | TypeRule(h).Some?
      ensures Carries(TypeRule(h).value, h)
    {
      TypeRuleCarries(h);
    }
    forall h: seq<Head> | CallRule(h, tasks).Some?
      ensures Carries(CallRule(h, tasks).value, h)
    {
      CallRuleCarries(h, tasks);
    }
  }

  lemma BuiltLists(rule: Rule, segs: seq<Segment>)
    requires rule.names != []
    ensures ArgLists(Build(rule, segs).segments) == One(CarriedArgs(rule, segs))
  {
    var built := Build(rule, segs).segments;
    PlainBut(built, |rule.names| + 1);
  }

  lemma {:induction false} ArgListsConcat(a: seq<Segment>, b: seq<Segment>)
    ensures ArgLists(a + b) == ArgLists(a) + ArgLists(b)
    decreases |a|
  {
    if a == [] {
      assert a + b == b;
    } else {
      assert (a + b)[1..] == a[1..] + b;
      ArgListsConcat(a[1..], b);
    }
  }

  /** Resolution neither adds nor loses an argument list. */
  lemma ResolutionKeepsLists(table: Table, p: Path)
    requires AllTokio(table)
    ensures ArgLists(Canonical(table, p).segments) == ArgLists(p.segments)
  {
    if p.segments != [] && p.segments[0].ident in table {
      var full, first := table[p.segments[0].ident], p.segments[0];
      PlainBut(Spread(full, first.args), |full| - 1);
      ArgListsConcat(Spread(full, first.args), p.segments[1..]);
    }
  }

  lemma ReplaceKeepsLists(table: Table, p: Path, rules: Rules)
    requires AllCarry(rules)
    ensures ArgLists(Replace(table, p, rules).segments) == ArgLists(Canonical(table, p).segments)
            || Replace(table, p, rules) == p
  {
    var segs := Canonical(table, p).segments;
    var h := Heads(segs);
    if rules(h).Some? {
      var rule := rules(h).value;
      BuiltLists(rule, segs);
      assert forall i :: 0 <= i < |segs| ==> h[i].plain == segs[i].args.NoArgs?;
      if rule.argsFrom.Some? {
        PlainBut(segs, rule.argsFrom.value);
      } else {
        AllArgsPlain(segs);
      }
    }
  }

  /** Wherever a path stands, each generic argument list written in it survives its rewriting
      exactly once, in order, and none is added. */
  lemma ArgumentsSurvive(table: Table, p: Path, tasks: bool)
    requires AllTokio(table)
    ensures forall rules :: rules in [TypeRule, CallRules(tasks), MacroRule, NoRule] ==>
              ArgLists(Replace(table, p, rules).segments) == ArgLists(p.segments)
  {
    RulesCarry(tasks);
    ResolutionKeepsLists(table, p);
    ReplaceKeepsLists(table, p, TypeRule);
    ReplaceKeepsLists(table, p, CallRules(tasks));
    ReplaceKeepsLists(table, p, MacroRule);
    ReplaceKeepsLists(table, p, NoRule);
  }

  // ---------- different primitives stay different ----------

  predicate SameNames(h: seq<Head>, g: seq<Head>) {
    |h| == |g| && forall i :: 0 <= i < |h| ==> h[i].ident == g[i].ident
  }

  /** The names of a model type tell its source. */
  lemma TypeRuleShape(h: seq<Head>)
    requires TypeRule(h).Some?
    ensures var rule := TypeRule(h).value;
            && rule.method_ == None && rule.argsFrom == Some(|h| - 1) && 1 <= |rule.names| <= 2
            && (|rule.names| == 1 ==>
                  |h| == 3 && h[1].ident == sync && (h[0].ident == std || h[0].ident == tokio)
                  && NamedAfter(rule.names[0], h[0].ident, h[2].ident))
            && (|rule.names| == 2 ==>
                  && h[0].ident == tokio && rule.names == [h[|h| - 2].ident, h[|h| - 1].ident]
                  && |h| == (if rule.names[0] == time then 3 else 4) && (|h| == 4 ==> h[1].ident == sync))
  {
    TargetsAreNamedAfter(h[2].ident);
  }

  lemma TypeRuleTells(h: seq<Head>, g: seq<Head>)
    requires TypeRule(h).Some? && TypeRule(g).Some?
    requires TypeRule(h).value.names == TypeRule(g).value.names
    ensures SameNames(h, g) && TypeRule(h) == TypeRule(g)
  {
    var names := TypeRule(h).value.names;
    TypeRuleShape(h);
    TypeRuleShape(g);
    if |names| == 1 {
      NameTells(names[0], h[0].ident, h[2].ident, g[0].ident, g[2].ident);
    } else {
      assert names[0] == h[|h| - 2].ident && names[1] == h[|h| - 1].ident;
      assert names[0] == g[|g| - 2].ident && names[1] == g[|g| - 1].ident;
    }
  }

  /** A model path tells the names of its rule and, with as many names, what it carried. */
  lemma BuiltTells(a: Rule, s: seq<Segment>, b: Rule, t: seq<Segment>)
    requires a.names != [] && b.names != [] && Build(a, s) == Build(b, t)
    ensures FlatNames(a) == FlatNames(b)
    ensures |a.names| == |b.names| ==> CarriedArgs(a, s) == CarriedArgs(b, t)
  {
    BuiltNames(a, s);
    BuiltNames(b, t);
    forall i | 0 <= i < |FlatNames(a)|
      ensures FlatNames(a)[i] == FlatNames(b)[i]
    {
      assert Build(a, s).segments[i + 2].ident == Build(b, t).segments[i + 2].ident;
    }
    assert Build(a, s).segments[|a.names| + 1] == Build(b, t).segments[|a.names| + 1];
  }

  lemma BuiltNames(rule: Rule, segs: seq<Segment>)
    requires rule.names != []
    ensures var built := Build(rule, segs).segments;
            && |built| == |FlatNames(rule)| + 2
            && (forall i :: 0 <= i < |FlatNames(rule)| ==> built[i + 2].ident == FlatNames(rule)[i])
            && built[|rule.names| + 1].args == CarriedArgs(rule, segs)
  {
  }

  lemma SameSegments(s: seq<Segment>, t: seq<Segment>, rule: Rule)
    requires SameNames(Heads(s), Heads(t)) && Carries(rule, Heads(s)) && Carries(rule, Heads(t))
    requires CarriedArgs(rule, s) == CarriedArgs(rule, t)
    ensures s == t
  {
    forall i | 0 <= i < |s|
      ensures s[i] == t[i]
    {
      assert Heads(s)[i].ident == Heads(t)[i].ident;
      assert Heads(s)[i].plain == s[i].args.NoArgs? && Heads(t)[i].plain == t[i].args.NoArgs?;
    }
  }

  lemma PlainFlatNames(h: seq<Head>)
    requires TypeRule(h).Some?
    ensures FlatNames(TypeRule(h).value) == TypeRule(h).value.names
  {
  }

  /** Two types that are rewritten to the same model type, generic arguments included, were the
      same type. */
  lemma TypesStayDistinct(table: Table, p: Path, q: Path)
    requires TypeRule(Heads(Canonical(table, p).segments)).Some?
    requires TypeRule(Heads(Canonical(table, q).segments)).Some?
    requires Replace(table, p, TypeRule) == Replace(table, q, TypeRule)
    ensures Canonical(table, p).segments == Canonical(table, q).segments
  {
    var s, t := Canonical(table, p).segments, Canonical(table, q).segments;
    var h, g := Heads(s), Heads(t);
    TypeRuleCarries(h);
    TypeRuleCarries(g);
    BuiltTells(TypeRule(h).value, s, TypeRule(g).value, t);
    PlainFlatNames(h);
    PlainFlatNames(g);
    TypeRuleTells(h, g);
    SameSegments(s, t, TypeRule(h).value);
  }

  /** A constructor of a lock. */
  ghost predicate Constructs(rule: Rule, h: seq<Head>) {
    && |h| == 4 && (h[0].ident == std || h[0].ident == tokio) && h[1].ident == sync
    && |rule.names| == 1 && NamedAfter(rule.names[0], h[0].ident, h[2].ident)
    && rule.method_ == Some(h[3].ident) && rule.argsFrom == Some(2)
  }

  /** A function that keeps its own name and its module's. */
  ghost predicate KeepsLastTwo(rule: Rule, h: seq<Head>) {
    && 3 <= |h| <= 4 && h[0].ident == tokio && rule.method_ == None
    && rule.names == [h[|h| - 2].ident, h[|h| - 1].ident] && Words(rule.names[0]) == []
    && if rule.names[0] == time then |h| == 3 && h[1].ident == time && rule.argsFrom == None
       else |h| == 4 && h[1].ident == sync && rule.argsFrom == Some(3)
  }

  ghost predicate Spawns(rule: Rule, h: seq<Head>) {
    && rule.method_ == None
    && ((rule.names == [spawn_task] && IsTokioSpawn(h)) || (rule.names == [spawn] && IsSupportedSpawn(h)))
  }

  lemma ConstructorShape(h: seq<Head>)
    requires ConstructorRule(h).Some?
    ensures var rule := ConstructorRule(h).value; Constructs(rule, h) || KeepsLastTwo(rule, h)
  {
    TargetsAreNamedAfter(h[2].ident);
  }

  lemma CallRuleShape(h: seq<Head>, tasks: bool)
    requires CallRule(h, tasks).Some?
    ensures var rule := CallRule(h, tasks).value; Constructs(rule, h) || KeepsLastTwo(rule, h) || Spawns(rule, h)
  {
    if ConstructorRule(h).Some? {
      ConstructorShape(h);
    }
  }

  lemma ConstructorTells(a: Rule, h: seq<Head>, b: Rule, g: seq<Head>)
    requires Constructs(a, h) && (Constructs(b, g) || KeepsLastTwo(b, g) || Spawns(b, g))
    requires FlatNames(a) == FlatNames(b)
    ensures SameNames(h, g) && a == b
  {
    assert FlatNames(a) == [a.names[0], h[3].ident];
    assert Words(FlatNames(b)[0]) != [];
    if Constructs(b, g) {
      assert FlatNames(b) == [b.names[0], g[3].ident];
      NameTells(a.names[0], h[0].ident, h[2].ident, g[0].ident, g[2].ident);
    }
  }

  lemma FunctionTells(a: Rule, h: seq<Head>, b: Rule, g: seq<Head>)
    requires KeepsLastTwo(a, h) && (KeepsLastTwo(b, g) || Spawns(b, g)) && FlatNames(a) == FlatNames(b)
    ensures SameNames(h, g) && a == b
  {
    assert FlatNames(a) == a.names && FlatNames(b) == b.names;
    assert a.names[0] == b.names[0] && a.names[1] == b.names[1];
  }

  lemma CallRuleTells(h: seq<Head>, g: seq<Head>, tasks: bool)
    requires CallRule(h, tasks).Some? && CallRule(g, tasks).Some?
    requires FlatNames(CallRule(h, tasks).value) == FlatNames(CallRule(g, tasks).value)
    ensures || (SameNames(h, g) && CallRule(h, tasks) == CallRule(g, tasks))
            || (IsTokioSpawn(h) && IsTokioSpawn(g)) || (IsSupportedSpawn(h) && IsSupportedSpawn(g))
  {
    var a, b := CallRule(h, tasks).value, CallRule(g, tasks).value;
    CallRuleShape(h, tasks);
    CallRuleShape(g, tasks);
    if Constructs(a, h) {
      ConstructorTells(a, h, b, g);
    } else if Constructs(b, g) {
      ConstructorTells(b, g, a, h);
    } else if KeepsLastTwo(a, h) {
      FunctionTells(a, h, b, g);
    } else if KeepsLastTwo(b, g) {
      FunctionTells(b, g, a, h);
    } else {
      assert FlatNames(a) == a.names && FlatNames(b) == b.names;
      assert a.names[0] == b.names[0];
    }
  }

  /** Two calls that are rewritten to the same model function, generic arguments included, were
      the same call, or two spellings of the same spawn. */
  lemma CallsStayDistinct(table: Table, p: Path, q: Path, tasks: bool)
    requires CallRule(Heads(Canonical(table, p).segments), tasks).Some?
    requires CallRule(Heads(Canonical(table, q).segments), tasks).Some?
    requires Replace(table, p, CallRules(tasks)) == Replace(table, q, CallRules(tasks))
    ensures var s, t := Canonical(table, p).segments, Canonical(table, q).segments;
            || s == t || (IsTokioSpawn(Heads(s)) && IsTokioSpawn(Heads(t)))
            || (IsSupportedSpawn(Heads(s)) && IsSupportedSpawn(Heads(t)))
  {
    var s, t := Canonical(table, p).segments, Canonical(table, q).segments;
    var h, g := Heads(s), Heads(t);
    CallRuleCarries(h, tasks);
    CallRuleCarries(g, tasks);
    BuiltTells(CallRule(h, tasks).value, s, CallRule(g, tasks).value, t);
    CallRuleTells(h, g, tasks);
    if SameNames(h, g) && CallRule(h, tasks) == CallRule(g, tasks) {
      SameSegments(s, t, CallRule(h, tasks).value);
    }
  }

  // ---------- at any depth ----------

  /** The path resolved throughout, up to a leading `::`. */
  function NormPath(table: Table, p: Path): Path
    decreases p
  {
    var inner := seq(|p.segments|, i requires 0 <= i < |p.segments| =>
      Segment(p.segments[i].ident, NormArgs(table, p.segments[i].args)));
    Path(false, Canonical(table, Path(p.leadingColon, inner)).segments)
  }

  function NormArgs(table: Table, args: Args): Args
    decreases args
  {
    match args
    case NoArgs => NoArgs
    case Angle(types) => Angle(seq(|types|, i requires 0 <= i < |types| => NormPath(table, types[i])))
  }

  function Normer(table: Table): Args -> Args {
    args => NormArgs(table, args)
  }

  /** The path and its generic arguments name no path of the model crate. */
  predicate NoModel(p: Path)
    decreases p
  {
    !ModelPath(p) && forall i :: 0 <= i < |p.segments| ==> NoModelArgs(p.segments[i].args)
  }

  predicate NoModelArgs(args: Args)
    decreases args
  {
    args.Angle? ==> forall i :: 0 <= i < |args.types| ==> NoModel(args.types[i])
  }

  lemma NormIsCanonical(table: Table, p: Path)
    ensures NormPath(table, p) == Path(false, MapArgs(Canonical(table, p).segments, Normer(table)))
  {
    var n := Normer(table);
    CanonicalOnArgs(table, p, n);
    assert OnArgs(p, n).segments == seq(|p.segments|, i requires 0 <= i < |p.segments| =>
      Segment(p.segments[i].ident, NormArgs(table, p.segments[i].args)));
  }

  /** Where an argument list of a resolved path comes from. */
  lemma ResolvedArgs(table: Table, p: Path, i: nat) returns (j: nat)
    requires i < |Canonical(table, p).segments| && Canonical(table, p).segments[i].args != NoArgs
    ensures j < |p.segments| && Canonical(table, p).segments[i].args == p.segments[j].args
  {
    if p.segments != [] && p.segments[0].ident in table {
      var n := |table[p.segments[0].ident]|;
      j := if i < n then 0 else i - n + 1;
    } else {
      j := i;
    }
  }

  /** Paths that resolve to the same names, with arguments that are rewritten alike. */
  lemma {:induction false} SameResolved(table: Table, p: Path, q: Path)
    requires NoModel(p) && NoModel(q)
    requires var r := Rewriter(table);
             MapArgs(Canonical(table, p).segments, r) == MapArgs(Canonical(table, q).segments, r)
    ensures NormPath(table, p) == NormPath(table, q)
    decreases p, 0
  {
    var r, n := Rewriter(table), Normer(table);
    var a, b := Canonical(table, p).segments, Canonical(table, q).segments;
    assert |MapArgs(a, r)| == |a| && |MapArgs(b, r)| == |b|;
    forall i | 0 <= i < |a|
      ensures a[i].ident == b[i].ident && n(a[i].args) == n(b[i].args)
    {
      assert MapArgs(a, r)[i] == MapArgs(b, r)[i];
      if a[i].args != NoArgs {
        var j := ResolvedArgs(table, p, i);
        var k := ResolvedArgs(table, q, i);
        ArgsStayDistinct(table, p.segments[j].args, q.segments[k].args);
      } else {
        assert b[i].args == NoArgs;
      }
    }
    assert MapArgs(a, n) == MapArgs(b, n);
    NormIsCanonical(table, p);
    NormIsCanonical(table, q);
  }

  lemma {:induction false} ArgsStayDistinct(table: Table, a: Args, b: Args)
    requires NoModelArgs(a) && NoModelArgs(b) && RewriteArgs(table, a) == RewriteArgs(table, b)
    ensures NormArgs(table, a) == NormArgs(table, b)
    decreases a, 0
  {
    if a.Angle? {
      assert |a.types| == |b.types|;
      forall i | 0 <= i < |a.types|
        ensures NormPath(table, a.types[i]) == NormPath(table, b.types[i])
      {
        assert RewriteArgs(table, a).types[i] == RewriteArgs(table, b).types[i];
        WholeTypesStayDistinct(table, a.types[i], b.types[i]);
      }
    }
  }

  lemma SameHeads(table: Table, p: Path)
    ensures var p1 := OnArgs(p, Rewriter(table));
            && Heads(Canonical(table, p1).segments) == Heads(Canonical(table, p).segments)
            && Canonical(table, p1).segments == MapArgs(Canonical(table, p).segments, Rewriter(table))
            && ModelPath(p1) == ModelPath(p)
  {
    CanonicalOnArgs(table, p, Rewriter(table));
    MapKeepsHeads(Canonical(table, p).segments, Rewriter(table));
  }

  /** A rewritten path shows whether a rule was found for it. */
  lemma RuleShows(table: Table, p: Path, rules: Rules)
    requires !ModelPath(p)
    ensures ModelPath(RewritePath(table, p, rules)) <==> rules(Heads(Canonical(table, p).segments)).Some?
  {
    SameHeads(table, p);
    var resolved := Canonical(table, OnArgs(p, Rewriter(table))).segments;
    if rules(Heads(resolved)).Some? {
      BuiltIsModelPath(rules(Heads(resolved)).value, resolved);
    }
  }

  /** Types that are rewritten to the same type were the same type, at every depth, up to
      resolution. */
  lemma {:induction false} WholeTypesStayDistinct(table: Table, p: Path, q: Path)
    requires NoModel(p) && NoModel(q) && RewriteType(table, p) == RewriteType(table, q)
    ensures NormPath(table, p) == NormPath(table, q)
    decreases p, 1
  {
    var p1, q1 := OnArgs(p, Rewriter(table)), OnArgs(q, Rewriter(table));
    TypesArePaths(table, p);
    TypesArePaths(table, q);
    SameHeads(table, p);
    SameHeads(table, q);
    RuleShows(table, p, TypeRule);
    RuleShows(table, q, TypeRule);
    if TypeRule(Heads(Canonical(table, p).segments)).Some? {
      TypesStayDistinct(table, p1, q1);
    }
    SameResolved(table, p, q);
  }

  /** Called paths that are rewritten to the same path were the same, at every depth of their
      generic arguments, up to resolution, or two spellings of the same spawn. */
  lemma WholeCallsStayDistinct(table: Table, p: Path, q: Path, tasks: bool)
    requires NoModel(p) && NoModel(q)
    requires RewritePath(table, p, CallRules(tasks)) == RewritePath(table, q, CallRules(tasks))
    ensures var h, g := Heads(Canonical(table, p).segments), Heads(Canonical(table, q).segments);
            || NormPath(table, p) == NormPath(table, q)
            || (IsTokioSpawn(h) && IsTokioSpawn(g)) || (IsSupportedSpawn(h) && IsSupportedSpawn(g))
  {
    var p1, q1 := OnArgs(p, Rewriter(table)), OnArgs(q, Rewriter(table));
    SameHeads(table, p);
    SameHeads(table, q);
    RuleShows(table, p, CallRules(tasks));
    RuleShows(table, q, CallRules(tasks));
    var h, g := Heads(Canonical(table, p).segments), Heads(Canonical(table, q).segments);
    if CallRule(h, tasks).Some? {
      CallsStayDistinct(table, p1, q1, tasks);
    }
    if !(IsTokioSpawn(h) && IsTokioSpawn(g)) && !(IsSupportedSpawn(h) && IsSupportedSpawn(g)) {
      SameResolved(table, p, q);
    }
  }

  // ---------- injected markers ----------

  lemma {:induction false} InjectedCount(order: seq<Unmodeled>, seen: set<Unmodeled>, m: Unmodeled)
    ensures multiset(Injected(order, seen))[MarkerStmt(m)] == if m in seen then multiset(order)[m] else 0
    decreases |order|
  {
    if order != [] {
      InjectedCount(order[1..], seen, m);
      assert order == [order[0]] + order[1..];
    }
  }

  /** One marker per primitive seen, and no other. */
  lemma OneMarkerEach(seen: set<Unmodeled>, m: Unmodeled)
    ensures multiset(InjectedMarkers(seen))[MarkerStmt(m)] == if m in seen then 1 else 0
  {
    InjectedCount(ORDER, seen, m);
    assert multiset(ORDER)[m] == 1;
  }

}
