/** The model attribute's path rewriting: std and tokio concurrency paths become their
    `::laplace_sdk::rt` equivalents, through whatever aliases are in scope. */
module ModelRewrite {

  import opened Options
  import opened RustSyntax
  import opened UseAliases

  // ---------- resolving an alias ----------

  /** The names of a path, all plain but the last, which carries `args`. */
  function Spread(names: seq<Ident>, args: Args): seq<Segment> {
    seq(|names|, i requires 0 <= i < |names| => Segment(names[i], if i == |names| - 1 then args else NoArgs))
  }

  /** The path with an aliased first segment replaced by the tokio path it stands for. */
  function Canonical(table: Table, p: Path): Path {
    if p.segments == [] || p.segments[0].ident !in table then p
    else Path(false, Spread(table[p.segments[0].ident], p.segments[0].args) + p.segments[1..])
  }

  // ---------- the rewrite tables ----------

  /** `::laplace_sdk::rt::names::method`, the last name taking the arguments of segment `argsFrom`. */
  datatype Rule = Rule(names: seq<Ident>, argsFrom: Option<nat>, method_: Option<Ident>)

  predicate StartsWith(h: seq<Head>, crate_: Ident, module_: Ident) {
    |h| >= 2 && h[0] == Head(crate_, true) && h[1] == Head(module_, true)
  }

  /** Exactly `a::b`, and exactly `a::b::c`, with no arguments anywhere. */
  predicate Named2(h: seq<Head>, a: Ident, b: Ident) {
    |h| == 2 && h[0] == Head(a, true) && h[1] == Head(b, true)
  }

  predicate Named3(h: seq<Head>, a: Ident, b: Ident, c: Ident) {
    |h| == 3 && h[0] == Head(a, true) && h[1] == Head(b, true) && h[2] == Head(c, true)
  }

  predicate IsTokioSpawn(h: seq<Head>) {
    Named2(h, tokio, spawn) || Named3(h, tokio, task, spawn)
  }

  predicate IsSupportedSpawn(h: seq<Head>) {
    Named3(h, std, thread, spawn) || Named2(h, thread, spawn)
  }

  function StdTarget(id: Ident): Option<Ident> {
    match id
    case Mutex => Some(ModelMutex)
    case RwLock => Some(ModelRwLock)
    case _ => None
  }

  function TokioTarget(id: Ident): Option<Ident> {
    match id
    case Mutex => Some(ModelAsyncMutex)
    case RwLock => Some(ModelAsyncRwLock)
    case Semaphore => Some(ModelAsyncSemaphore)
    case Notify => Some(ModelAsyncNotify)
    case _ => None
  }

  predicate ChannelFn(module_: Ident, func: Ident) {
    match module_
    case mpsc => func == channel || func == unbounded_channel
    case oneshot => func == channel
    case watch => func == channel
    case broadcast => func == channel
    case _ => false
  }

  predicate ChannelType(module_: Ident, ty: Ident) {
    match module_
    case mpsc => ty == Sender || ty == Receiver || ty == UnboundedSender || ty == UnboundedReceiver
    case oneshot => ty == Sender || ty == Receiver
    case watch => ty == Sender || ty == Receiver || ty == Ref
    case broadcast => ty == Sender || ty == Receiver
    case _ => false
  }

  function ConstructorRule(h: seq<Head>): Option<Rule> {
    if |h| != 4 then None
    else if StartsWith(h, std, sync) && h[3] == Head(newName, true) && StdTarget(h[2].ident).Some?
    then Some(Rule([StdTarget(h[2].ident).value], Some(2), Some(newName)))
    else if StartsWith(h, tokio, sync) && h[3].plain
            && (h[3].ident == newName || h[3].ident == const_new) && TokioTarget(h[2].ident).Some?
    then Some(Rule([TokioTarget(h[2].ident).value], Some(2), Some(h[3].ident)))
    else if StartsWith(h, tokio, sync) && h[2].plain && ChannelFn(h[2].ident, h[3].ident)
    then Some(Rule([h[2].ident, h[3].ident], Some(3), None))
    else None
  }

  /** How a called path is rewritten; `tasks` routes tokio spawns through the task shadow. */
  function CallRule(h: seq<Head>, tasks: bool): Option<Rule> {
    if tasks && IsTokioSpawn(h) then Some(Rule([spawn_task], None, None))
    else if IsSupportedSpawn(h) then Some(Rule([spawn], None, None))
    else if ConstructorRule(h).Some? then ConstructorRule(h)
    else if |h| == 3 && StartsWith(h, tokio, time) && h[2].plain
            && (h[2].ident == sleep || h[2].ident == timeout || h[2].ident == interval)
    then Some(Rule([time, h[2].ident], None, None))
    else None
  }

  function TypeRule(h: seq<Head>): Option<Rule> {
    if |h| == 3 && StartsWith(h, std, sync) && StdTarget(h[2].ident).Some?
    then Some(Rule([StdTarget(h[2].ident).value], Some(2), None))
    else if |h| == 3 && StartsWith(h, tokio, sync) && TokioTarget(h[2].ident).Some?
    then Some(Rule([TokioTarget(h[2].ident).value], Some(2), None))
    else if |h| == 4 && StartsWith(h, tokio, sync) && h[2].plain && ChannelType(h[2].ident, h[3].ident)
    then Some(Rule([h[2].ident, h[3].ident], Some(3), None))
    else if |h| == 3 && StartsWith(h, tokio, time)
            && (h[2].ident == Sleep || h[2].ident == Timeout || h[2].ident == Interval)
    then Some(Rule([time, h[2].ident], Some(2), None))
    else None
  }

  function MacroRule(h: seq<Head>): Option<Rule> {
    if Named2(h, tokio, select) then Some(Rule([laplace_select], None, None)) else None
  }

  /** A plain path expression is left alone. */
  function NoRule(h: seq<Head>): Option<Rule> {
    None
  }

  // ---------- recognised but not modelled ----------

  datatype Unmodeled = UCondvar | UAtomic | UChannel | UTokioSpawn | UTokioTime | UArcSwap

  predicate Mentions(h: seq<Head>, id: Ident) {
    exists i :: 0 <= i < |h| && h[i].ident == id
  }

  predicate MentionsAtomic(h: seq<Head>) {
    exists i :: 0 <= i < |h| && (h[i].ident == atomic || h[i].ident.Atomic?)
  }

  predicate UnmodeledTime(id: Ident) {
    || id == Instant || id == sleep_until || id == interval_at || id == timeout_at
    || id == advance || id == pause || id == resume
  }

  predicate ArcSwapRoot(id: Ident) {
    id == arc_swap || id == ArcSwap || id == ArcSwapOption || id == ArcSwapAny || id == ArcSwapWeak
  }

  function Classify(h: seq<Head>): Option<Unmodeled> {
    if |h| >= 3 && StartsWith(h, tokio, time) && UnmodeledTime(h[2].ident) then Some(UTokioTime)
    else if IsTokioSpawn(h) || Named3(h, tokio, task, spawn_blocking) || Named3(h, tokio, task, spawn_local)
    then Some(UTokioSpawn)
    else if |h| >= 1 && ArcSwapRoot(h[0].ident) then Some(UArcSwap)
    else if Mentions(h, Condvar) then Some(UCondvar)
    else if Mentions(h, mpsc) then Some(UChannel)
    else if MentionsAtomic(h) then Some(UAtomic)
    else None
  }

  // ---------- rewriting one path ----------

  function Plain(id: Ident): Segment {
    Segment(id, NoArgs)
  }

  function CarriedArgs(rule: Rule, segs: seq<Segment>): Args {
    if rule.argsFrom.Some? && rule.argsFrom.value < |segs| then segs[rule.argsFrom.value].args else NoArgs
  }

  function Build(rule: Rule, segs: seq<Segment>): Path {
    Path(true, [Plain(laplace_sdk), Plain(rt)] + Spread(rule.names, CarriedArgs(rule, segs))
               + if rule.method_.Some? then [Plain(rule.method_.value)] else [])
  }

  type Rules = seq<Head> -> Option<Rule>

  /** Resolve, look up, rewrite; a path no rule matches stays as it was written. */
  function Replace(table: Table, p: Path, rules: Rules): Path {
    var resolved := Canonical(table, p);
    match rules(Heads(resolved.segments))
    case Some(rule) => Build(rule, resolved.segments)
    case None => p
  }

  function OwnMarkers(table: Table, p: Path, rules: Rules): set<Unmodeled> {
    var heads := Heads(Canonical(table, p).segments);
    if rules(heads).None? && Classify(heads).Some? then {Classify(heads).value} else {}
  }

  function OnArgs(p: Path, f: Args -> Args): Path {
    Path(p.leadingColon, MapArgs(p.segments, f))
  }

  // ---------- types, with their generic arguments ----------

  /** A type's generic arguments are rewritten before the type itself. */
  function RewriteType(table: Table, p: Path): Path
    decreases p
  {
    Replace(table, Path(p.leadingColon, seq(|p.segments|, i requires 0 <= i < |p.segments| =>
      Segment(p.segments[i].ident, RewriteArgs(table, p.segments[i].args)))), TypeRule)
  }

  function RewriteArgs(table: Table, args: Args): Args
    decreases args
  {
    match args
    case NoArgs => NoArgs
    case Angle(types) => Angle(seq(|types|, i requires 0 <= i < |types| => RewriteType(table, types[i])))
  }

  function TypeMarkers(table: Table, p: Path): set<Unmodeled>
    decreases p, 1
  {
    PathMarkers(table, p) + OwnMarkers(table, p, TypeRule)
  }

  /** The markers raised inside a path's generic arguments. */
  function PathMarkers(table: Table, p: Path): set<Unmodeled>
    decreases p, 0
  {
    set i, m | 0 <= i < |p.segments| && m in ArgMarkers(table, p.segments[i].args) :: m
  }

  function ArgMarkers(table: Table, args: Args): set<Unmodeled>
    decreases args
  {
    match args
    case NoArgs => {}
    case Angle(types) => set i, m | 0 <= i < |types| && m in TypeMarkers(table, types[i]) :: m
  }

  function Rewriter(table: Table): Args -> Args {
    args => RewriteArgs(table, args)
  }

  /** Any path: the generic arguments first, then the path by the rules of where it stands. */
  function RewritePath(table: Table, p: Path, rules: Rules): Path {
    Replace(table, OnArgs(p, Rewriter(table)), rules)
  }

  lemma TypesArePaths(table: Table, p: Path)
    ensures RewriteType(table, p) == RewritePath(table, p, TypeRule)
  {
    assert OnArgs(p, Rewriter(table)).segments == seq(|p.segments|, i requires 0 <= i < |p.segments| =>
      Segment(p.segments[i].ident, RewriteArgs(table, p.segments[i].args)));
  }

  // ---------- resolution and generic arguments ----------

  /** Resolution moves argument lists and does nothing else to them. */
  lemma CanonicalOnArgs(table: Table, p: Path, f: Args -> Args)
    requires f(NoArgs) == NoArgs
    ensures Canonical(table, OnArgs(p, f)) == OnArgs(Canonical(table, p), f)
  {
    if p.segments != [] && p.segments[0].ident in table {
      var q := Canonical(table, OnArgs(p, f));
      var r := OnArgs(Canonical(table, p), f);
      assert q.segments == r.segments;
    }
  }

  /** Resolving twice is resolving once, exactly when `tokio` is not rebound. */
  lemma CanonicalIdempotent(table: Table, p: Path)
    requires AllTokio(table) && p.segments != [] && p.segments[0].ident in table
    ensures Canonical(table, Canonical(table, p)) == Canonical(table, p) <==>
            (tokio in table ==> table[tokio] == [tokio])
  {
    var q := Canonical(table, p);
    assert q.segments[0].ident == tokio;
    if tokio in table {
      var r := Canonical(table, q);
      if table[tokio] == [tokio] {
        assert r.segments == q.segments;
      } else {
        assert |r.segments| == |q.segments| - 1 + |table[tokio]|;
      }
    }
  }

  lemma BuildOnArgs(rule: Rule, segs: seq<Segment>, f: Args -> Args)
    requires f(NoArgs) == NoArgs
    ensures OnArgs(Build(rule, segs), f) == Build(rule, MapArgs(segs, f))
  {
    var p, q := OnArgs(Build(rule, segs), f), Build(rule, MapArgs(segs, f));
    assert p.segments == q.segments;
  }

  // ---------- the model crate's own paths ----------

  /** A path `::laplace_sdk::rt::...`: what rewriting produces. */
  predicate ModelPath(p: Path) {
    p.leadingColon && |p.segments| >= 2 && p.segments[0].ident == laplace_sdk && p.segments[1].ident == rt
  }

  lemma BuiltIsModelPath(rule: Rule, segs: seq<Segment>)
    ensures ModelPath(Build(rule, segs))
  {
  }

  /** No rule applies to a path with `rt` in it. */
  ghost predicate Spares(rules: Rules) {
    forall h :: rules(h).Some? ==> !Mentions(h, rt)
  }

  lemma SparedRule(rules: Rules, h: seq<Head>, i: nat)
    requires Spares(rules) && i < |h| && h[i].ident == rt
    ensures rules(h) == None
  {
    assert Mentions(h, rt);
  }

  lemma TypeRuleNames(h: seq<Head>)
    requires TypeRule(h).Some?
    ensures 3 <= |h| <= 4 && h[0].ident != rt && h[1].ident != rt && h[2].ident != rt
    ensures |h| == 4 ==> h[3].ident != rt
  {
  }

  lemma TypeRuleSpares()
    ensures Spares(TypeRule)
  {
    forall h: seq<Head> | TypeRule(h).Some?
      ensures !Mentions(h, rt)
    {
      TypeRuleNames(h);
    }
  }

  lemma OtherRulesSpare()
    ensures Spares(MacroRule) && Spares(NoRule)
  {
  }

  /** So the model crate's paths stay, whatever `laplace_sdk` may be bound to. */
  lemma ModelPathStays(table: Table, p: Path, rules: Rules)
    requires ModelPath(p) && Spares(rules)
    ensures Replace(table, p, rules) == p
  {
    var resolved := Canonical(table, p);
    if p.segments[0].ident in table {
      assert resolved.segments[|table[p.segments[0].ident]|] == p.segments[1];
    }
    assert exists i :: 0 <= i < |resolved.segments| && resolved.segments[i].ident == rt;
    var i :| 0 <= i < |resolved.segments| && resolved.segments[i].ident == rt;
    assert Heads(resolved.segments)[i].ident == rt;
  }

}
