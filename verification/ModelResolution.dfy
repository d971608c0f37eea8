/** Names and the paths they stand for, without any table: what a fully qualified path is, and
    that rewriting an aliased path agrees with rewriting its fully qualified form. */
module ModelResolution {

  import opened Options
  import opened RustSyntax
  import opened UseAliases
  import opened ModelRewrite

  // ---------- the fully qualified form ----------

  /** The path each name stands for, if it stands for one. */
  type Naming = Ident -> Option<seq<Ident>>

  /** The path with its first name written out; its arguments go to the last name of what it
      stands for. A path from the root is written out already. */
  function Resolve(names: Naming, p: Path): Path {
    if p.leadingColon || p.segments == [] then p
    else
      match names(p.segments[0].ident)
      case None => p
      case Some(full) => Path(false, Written(full, p.segments[0].args) + p.segments[1..])
  }

  function Written(full: seq<Ident>, args: Args): seq<Segment> {
    if full == [] then [] else Bare(full[..|full| - 1]) + [Segment(full[|full| - 1], args)]
  }

  function Bare(names: seq<Ident>): seq<Segment> {
    if names == [] then [] else [Plain(names[0])] + Bare(names[1..])
  }

  /** Every path of a type resolved, at any depth. */
  function QualifyType(names: Naming, p: Path): Path
    decreases p
  {
    Resolve(names, Path(p.leadingColon, seq(|p.segments|, i requires 0 <= i < |p.segments| =>
      Segment(p.segments[i].ident, QualifyArgs(names, p.segments[i].args)))))
  }

  function QualifyArgs(names: Naming, args: Args): Args
    decreases args
  {
    match args
    case NoArgs => NoArgs
    case Angle(types) => Angle(seq(|types|, i requires 0 <= i < |types| => QualifyType(names, types[i])))
  }

  function Qualifier(names: Naming): Args -> Args {
    args => QualifyArgs(names, args)
  }

  function QualifyPath(names: Naming, p: Path): Path {
    Resolve(names, OnArgs(p, Qualifier(names)))
  }

  lemma QualifiedTypesArePaths(names: Naming, p: Path)
    ensures QualifyType(names, p) == QualifyPath(names, p)
  {
    assert OnArgs(p, Qualifier(names)).segments == seq(|p.segments|, i requires 0 <= i < |p.segments| =>
      Segment(p.segments[i].ident, QualifyArgs(names, p.segments[i].args)));
  }

  lemma BothKeepShape(table: Table, names: Naming)
    ensures KeepsShape(Rewriter(table)) && KeepsShape(Qualifier(names))
  {
  }

  // ---------- tables and names that agree ----------

  function Lookup(table: Table, x: Ident): Option<seq<Ident>> {
    if x in table then Some(table[x]) else None
  }

  /** The table lists exactly the names that stand for something, and what. */
  ghost predicate Follows(table: Table, names: Naming) {
    forall x :: names(x) == Lookup(table, x)
  }

  lemma {:induction false} BareIsPlain(names: seq<Ident>)
    ensures |Bare(names)| == |names| && forall i :: 0 <= i < |names| ==> Bare(names)[i] == Plain(names[i])
    decreases |names|
  {
    if names != [] {
      BareIsPlain(names[1..]);
    }
  }

  lemma LookupResolves(table: Table, names: Naming, p: Path)
    requires p.segments == [] || names(p.segments[0].ident) == Lookup(table, p.segments[0].ident)
    requires !p.leadingColon
    ensures Canonical(table, p) == Resolve(names, p)
  {
    if p.segments != [] && p.segments[0].ident in table {
      var full := table[p.segments[0].ident];
      if full != [] {
        BareIsPlain(full[..|full| - 1]);
      }
      assert Canonical(table, p).segments == Resolve(names, p).segments;
    }
  }

  /** Looking a path up in such a table is resolving it, exactly unless it starts from the root
      and its first name is an alias. */
  lemma CanonicalResolves(table: Table, names: Naming, p: Path)
    requires Follows(table, names)
    ensures Canonical(table, p) == Resolve(names, p) <==>
            !(p.leadingColon && p.segments != [] && p.segments[0].ident in table)
  {
    if !p.leadingColon {
      LookupResolves(table, names, p);
    }
  }

  // ---------- which paths fit ----------

  /** Whether a path may start with this name, given whether it starts from the root. */
  type Fitting = (Ident, bool) -> bool

  predicate HeadFits(fits: Fitting, p: Path) {
    p.segments == [] || ModelPath(p) || fits(p.segments[0].ident, p.leadingColon)
  }

  /** The path and all those in its generic arguments fit. */
  predicate PathFits(fits: Fitting, p: Path)
    decreases p
  {
    HeadFits(fits, p) && forall i :: 0 <= i < |p.segments| ==> ArgsFit(fits, p.segments[i].args)
  }

  predicate ArgsFit(fits: Fitting, args: Args)
    decreases args
  {
    args.Angle? ==> forall i :: 0 <= i < |args.types| ==> PathFits(fits, args.types[i])
  }

  /** The code's table of a place, what names mean there, which names agree, and whether the
      `use` declarations stay. */
  datatype Place = Place(table: Table, names: Naming, fits: Fitting, keep: bool)

  /** The aliases in force where the qualified form stands: the same ones if its `use`
      declarations are kept, none if they are dropped. */
  function Target(table: Table, keep: bool): Table {
    if keep then table else map[]
  }

  function TargetOf(at: Place): Table {
    Target(at.table, at.keep)
  }

  /** For names that fit, the table says what they mean; those that fit at the root are no
      aliases. Aliases stand for tokio paths, and where they stay in force `tokio` itself is
      not rebound. */
  ghost predicate Sound(at: Place) {
    && AllTokio(at.table)
    && (at.keep && tokio in at.table ==> at.table[tokio] == [tokio])
    && forall x ::
         && (at.fits(x, false) ==> at.names(x) == Lookup(at.table, x))
         && (at.fits(x, true) ==> x !in at.table)
  }

  lemma FittingResolves(at: Place, p: Path)
    requires Sound(at) && HeadFits(at.fits, p) && !ModelPath(p)
    ensures Canonical(at.table, p) == Resolve(at.names, p)
  {
    if !p.leadingColon {
      LookupResolves(at.table, at.names, p);
    } else if p.segments != [] {
      assert at.fits(p.segments[0].ident, true);
    }
  }

  // ---------- rewriting commutes with resolving ----------

  lemma QualifiedIsSettled(at: Place, p: Path)
    requires Sound(at)
    ensures Canonical(TargetOf(at), Canonical(at.table, p)) == Canonical(at.table, p)
  {
    if at.keep && p.segments != [] && p.segments[0].ident in at.table {
      CanonicalIdempotent(at.table, p);
    }
  }

  /** Rewriting one path and then resolving it is resolving it and then rewriting. */
  lemma ReplaceCommutes(at: Place, p: Path, rules: Rules, f: Args -> Args)
    requires Sound(at) && HeadFits(at.fits, p) && Spares(rules) && KeepsShape(f)
    ensures Resolve(at.names, OnArgs(Replace(at.table, p, rules), f)) ==
            Replace(TargetOf(at), Resolve(at.names, OnArgs(p, f)), rules)
  {
    if ModelPath(p) {
      ModelPathStays(at.table, p, rules);
      ModelPathStays(TargetOf(at), OnArgs(p, f), rules);
    } else {
      var resolved := Canonical(at.table, p);
      FittingResolves(at, OnArgs(p, f));
      CanonicalOnArgs(at.table, p, f);
      QualifiedIsSettled(at, OnArgs(p, f));
      MapKeepsHeads(resolved.segments, f);
      var found := rules(Heads(resolved.segments));
      if found.Some? {
        BuildOnArgs(found.value, resolved.segments, f);
        BuiltIsModelPath(found.value, resolved.segments);
      }
    }
  }

  /** Paths anywhere: the aliased and the qualified form are rewritten to the same path,
      generic arguments included. */
  lemma {:induction false} PathCommutes(at: Place, p: Path, rules: Rules)
    requires Sound(at) && PathFits(at.fits, p) && Spares(rules)
    ensures QualifyPath(at.names, RewritePath(at.table, p, rules)) ==
            RewritePath(TargetOf(at), QualifyPath(at.names, p), rules)
    decreases p, 0
  {
    var r, q, t := Rewriter(at.table), Qualifier(at.names), Rewriter(TargetOf(at));
    var p1, p2 := OnArgs(p, r), OnArgs(p, q);
    BothKeepShape(at.table, at.names);
    BothKeepShape(TargetOf(at), at.names);
    ResolveOnArgs(at.names, p2, t);
    forall i | 0 <= i < |p.segments|
      ensures q(r(p.segments[i].args)) == t(q(p.segments[i].args))
    {
      ArgsCommute(at, p.segments[i].args);
    }
    MappedTwice(p, r, q, q, t);
    ReplaceCommutes(at, p1, rules, q);
  }

  lemma MappedTwice(p: Path, f: Args -> Args, f2: Args -> Args, g: Args -> Args, g2: Args -> Args)
    requires forall i :: 0 <= i < |p.segments| ==> f2(f(p.segments[i].args)) == g2(g(p.segments[i].args))
    ensures OnArgs(OnArgs(p, f), f2) == OnArgs(OnArgs(p, g), g2)
  {
    assert OnArgs(OnArgs(p, f), f2).segments == OnArgs(OnArgs(p, g), g2).segments;
  }

  lemma MapArgsConcat(a: seq<Segment>, b: seq<Segment>, f: Args -> Args)
    ensures MapArgs(a + b, f) == MapArgs(a, f) + MapArgs(b, f)
  {
  }

  lemma WrittenOnArgs(full: seq<Ident>, args: Args, f: Args -> Args)
    requires f(NoArgs) == NoArgs
    ensures MapArgs(Written(full, args), f) == Written(full, f(args))
  {
    if full != [] {
      BareIsPlain(full[..|full| - 1]);
    }
  }

  lemma ResolveOnArgs(names: Naming, p: Path, f: Args -> Args)
    requires f(NoArgs) == NoArgs
    ensures Resolve(names, OnArgs(p, f)) == OnArgs(Resolve(names, p), f)
  {
    if !p.leadingColon && p.segments != [] && names(p.segments[0].ident).Some? {
      var full, first := names(p.segments[0].ident).value, p.segments[0];
      WrittenOnArgs(full, first.args, f);
      MapArgsConcat(Written(full, first.args), p.segments[1..], f);
      assert OnArgs(p, f).segments[1..] == MapArgs(p.segments[1..], f);
    }
  }

  lemma {:induction false} ArgsCommute(at: Place, args: Args)
    requires Sound(at) && ArgsFit(at.fits, args)
    ensures QualifyArgs(at.names, RewriteArgs(at.table, args)) ==
            RewriteArgs(TargetOf(at), QualifyArgs(at.names, args))
    decreases args, 0
  {
    if args.Angle? {
      var types := args.types;
      forall i | 0 <= i < |types|
        ensures QualifyType(at.names, RewriteType(at.table, types[i])) ==
                RewriteType(TargetOf(at), QualifyType(at.names, types[i]))
      {
        TypeCommutes(at, types[i]);
      }
      assert QualifyArgs(at.names, RewriteArgs(at.table, args)).types ==
             RewriteArgs(TargetOf(at), QualifyArgs(at.names, args)).types;
    }
  }

  lemma {:induction false} TypeCommutes(at: Place, ty: Path)
    requires Sound(at) && PathFits(at.fits, ty)
    ensures QualifyType(at.names, RewriteType(at.table, ty)) == RewriteType(TargetOf(at), QualifyType(at.names, ty))
    decreases ty, 1
  {
    TypeRuleSpares();
    TypesArePaths(at.table, ty);
    QualifiedTypesArePaths(at.names, RewriteType(at.table, ty));
    QualifiedTypesArePaths(at.names, ty);
    TypesArePaths(TargetOf(at), QualifyType(at.names, ty));
    PathCommutes(at, ty, TypeRule);
  }

  // ---------- and raises the same markers ----------

  /** No primitive that raises a marker is meant by `path::rt`. */
  predicate Quiet(path: seq<Ident>) {
    Classify(PlainHeads(path + [rt])) == None
  }

  function PlainHeads(path: seq<Ident>): seq<Head> {
    seq(|path|, i requires 0 <= i < |path| => Head(path[i], true))
  }

  /** Where the aliases are dropped, one called like the model crate, if any, is a quiet one. */
  predicate MarkersFit(table: Table, keep: bool) {
    keep || laplace_sdk !in table || Quiet(table[laplace_sdk])
  }

  /** What is in the way of two paths being classified alike, apart from their starts. */
  ghost predicate SameMentions(h: seq<Head>, g: seq<Head>) {
    (forall x :: Mentions(h, x) && (x == Condvar || x == mpsc) ==> Mentions(g, x))
    && (MentionsAtomic(h) ==> MentionsAtomic(g))
  }

  ghost predicate UnmarkedStart(h: seq<Head>) {
    && !(|h| >= 3 && StartsWith(h, tokio, time) && UnmodeledTime(h[2].ident))
    && !IsTokioSpawn(h) && !Named3(h, tokio, task, spawn_blocking) && !Named3(h, tokio, task, spawn_local)
    && !(|h| >= 1 && ArcSwapRoot(h[0].ident))
  }

  lemma ClassifiedAlike(h: seq<Head>, g: seq<Head>)
    requires UnmarkedStart(h) && UnmarkedStart(g) && SameMentions(h, g) && SameMentions(g, h)
    ensures Classify(h) == Classify(g)
  {
    assert Mentions(h, Condvar) == Mentions(g, Condvar);
    assert Mentions(h, mpsc) == Mentions(g, mpsc);
  }

  /** `g` is `h` with its first name replaced by those of `alias`. */
  ghost predicate Spliced(alias: seq<Ident>, h: seq<Head>, g: seq<Head>) {
    && h != [] && |g| == |alias| + |h| - 1
    && (forall i :: 0 <= i < |alias| ==> g[i].ident == alias[i])
    && (forall i :: 1 <= i < |h| ==> g[|alias| + i - 1] == h[i])
  }

  lemma CanonicalSplices(table: Table, p: Path)
    requires p.segments != [] && p.segments[0].ident in table
    ensures Spliced(table[p.segments[0].ident], Heads(p.segments), Heads(Canonical(table, p).segments))
  {
    var alias, q := table[p.segments[0].ident], Canonical(table, p);
    assert forall i :: 1 <= i < |p.segments| ==> q.segments[|alias| + i - 1] == p.segments[i];
  }

  /** `alias::rt::...`, as the lookup of `::laplace_sdk::rt::...` makes it, and the original. */
  lemma QuietAliasMentions(alias: seq<Ident>, h: seq<Head>, g: seq<Head>)
    requires Quiet(alias) && |h| >= 2 && h[0].ident == laplace_sdk && h[1].ident == rt && Spliced(alias, h, g)
    ensures SameMentions(h, g) && SameMentions(g, h)
  {
    var plain := PlainHeads(alias + [rt]);
    assert forall i :: 0 <= i < |alias| ==> plain[i].ident == g[i].ident;
    assert !Mentions(plain, Condvar) && !Mentions(plain, mpsc) && !MentionsAtomic(plain);
    forall i | 0 <= i < |h|
      ensures h[i].ident != laplace_sdk ==> i > 0 && g[|alias| + i - 1].ident == h[i].ident
    {
    }
    forall i | 0 <= i < |g|
      ensures i < |alias| || g[i].ident == h[i - |alias| + 1].ident
    {
    }
  }

  lemma QuietAliasStart(alias: seq<Ident>, h: seq<Head>, g: seq<Head>)
    requires Quiet(alias) && TokioRooted(alias) && |h| >= 2 && h[0].ident == laplace_sdk && h[1].ident == rt
    requires Spliced(alias, h, g)
    ensures UnmarkedStart(h) && UnmarkedStart(g)
  {
    var plain := PlainHeads(alias + [rt]);
    assert g[|alias|] == h[1];
    assert |alias| >= 3 ==> plain[1].ident == g[1].ident && plain[2].ident == g[2].ident;
    assert |alias| >= 3 ==> plain[0] == Head(tokio, true) && plain[1].plain;
  }

  lemma SplicedAlike(alias: seq<Ident>, h: seq<Head>, g: seq<Head>)
    requires Quiet(alias) && TokioRooted(alias) && |h| >= 2 && h[0].ident == laplace_sdk && h[1].ident == rt
    requires Spliced(alias, h, g)
    ensures Classify(h) == Classify(g)
  {
    QuietAliasMentions(alias, h, g);
    QuietAliasStart(alias, h, g);
    ClassifiedAlike(h, g);
  }

  /** A quiet alias called like the model crate changes no marker of the model crate's paths. */
  lemma QuietAliasMarks(table: Table, p: Path, rules: Rules)
    requires AllTokio(table) && Spares(rules) && ModelPath(p)
    requires laplace_sdk in table && Quiet(table[laplace_sdk])
    ensures OwnMarkers(table, p, rules) == OwnMarkers(map[], p, rules)
  {
    var alias, h, g := table[laplace_sdk], Heads(p.segments), Heads(Canonical(table, p).segments);
    assert h[0].ident == laplace_sdk && h[1].ident == rt;
    CanonicalSplices(table, p);
    SplicedAlike(alias, h, g);
    assert g[|alias|] == h[1];
    assert Mentions(h, rt) && Mentions(g, rt);
  }

  function RtPath(): Path {
    Path(true, [Plain(laplace_sdk), Plain(rt)])
  }

  lemma AliasedRt(table: Table)
    requires laplace_sdk in table
    ensures Heads(Canonical(table, RtPath()).segments) == PlainHeads(table[laplace_sdk] + [rt])
  {
    var q, alias := Canonical(table, RtPath()).segments, table[laplace_sdk];
    assert forall i :: 0 <= i < |alias| ==> q[i] == Plain(alias[i]);
    assert q[|alias|] == Plain(rt);
  }

  lemma RtPathIsSilent(rules: Rules)
    ensures ModelPath(RtPath()) && OwnMarkers(map[], RtPath(), rules) == {}
  {
    var h := Heads(RtPath().segments);
    assert h[0].ident == laplace_sdk && h[1].ident == rt;
    SilentModelCrate(h);
  }

  /** Any other alias of that name marks the shortest such path. */
  lemma LoudAliasMarks(table: Table, rules: Rules)
    requires AllTokio(table) && Spares(rules) && laplace_sdk in table && !Quiet(table[laplace_sdk])
    ensures ModelPath(RtPath()) && OwnMarkers(table, RtPath(), rules) != {} && OwnMarkers(map[], RtPath(), rules) == {}
  {
    var g := Heads(Canonical(table, RtPath()).segments);
    AliasedRt(table);
    SparedRule(rules, g, |table[laplace_sdk]|);
    RtPathIsSilent(rules);
  }

  lemma SilentModelCrate(h: seq<Head>)
    requires |h| == 2 && h[0].ident == laplace_sdk && h[1].ident == rt
    ensures Classify(h) == None
  {
    assert forall x :: Mentions(h, x) ==> x == laplace_sdk || x == rt;
  }

  /** The condition is exact: the model crate's own paths raise the markers they would without
      any alias iff no alias is called `laplace_sdk`, or it is quiet. */
  lemma MarkersFitExactly(table: Table, rules: Rules)
    requires AllTokio(table) && Spares(rules)
    ensures MarkersFit(table, false) <==>
            forall p :: ModelPath(p) ==> OwnMarkers(table, p, rules) == OwnMarkers(map[], p, rules)
  {
    if MarkersFit(table, false) {
      forall p | ModelPath(p)
        ensures OwnMarkers(table, p, rules) == OwnMarkers(map[], p, rules)
      {
        if laplace_sdk in table {
          QuietAliasMarks(table, p, rules);
        }
      }
    } else {
      LoudAliasMarks(table, rules);
    }
  }

  /** And a name like the model crate's raises nothing that the target would not. */
  ghost predicate FullySound(at: Place) {
    Sound(at) && MarkersFit(at.table, at.keep)
  }

  lemma ModelMarkersCommute(at: Place, p: Path, rules: Rules, f: Args -> Args)
    requires FullySound(at) && ModelPath(p) && Spares(rules) && KeepsShape(f)
    ensures OwnMarkers(TargetOf(at), OnArgs(p, f), rules) == OwnMarkers(at.table, p, rules)
  {
    MarkersIgnoreArgs(TargetOf(at), p, rules, f);
    if !at.keep && laplace_sdk in at.table {
      QuietAliasMarks(at.table, p, rules);
    }
  }

  lemma MarkersIgnoreArgs(table: Table, p: Path, rules: Rules, f: Args -> Args)
    requires KeepsShape(f)
    ensures OwnMarkers(table, OnArgs(p, f), rules) == OwnMarkers(table, p, rules)
  {
    CanonicalOnArgs(table, p, f);
    MapKeepsHeads(Canonical(table, p).segments, f);
  }

  /** A path and its fully qualified form raise the same marker. */
  lemma OwnMarkersCommute(at: Place, p: Path, rules: Rules, f: Args -> Args)
    requires FullySound(at) && HeadFits(at.fits, p) && Spares(rules) && KeepsShape(f)
    ensures OwnMarkers(TargetOf(at), Resolve(at.names, OnArgs(p, f)), rules) == OwnMarkers(at.table, p, rules)
  {
    if ModelPath(p) {
      ModelMarkersCommute(at, p, rules, f);
    } else {
      MarkersIgnoreArgs(at.table, p, rules, f);
      FittingResolves(at, OnArgs(p, f));
      QualifiedIsSettled(at, OnArgs(p, f));
    }
  }

  /** Resolution moves argument lists to other segments and changes none of them. */
  lemma CanonicalKeepsPathMarkers(table: Table, other: Table, p: Path)
    requires AllTokio(table)
    ensures PathMarkers(other, Canonical(table, p)) == PathMarkers(other, p)
  {
    if p.segments != [] && p.segments[0].ident in table {
      var q := Canonical(table, p);
      var shift := |table[p.segments[0].ident]| - 1;
      assert forall i :: 0 <= i < |p.segments| ==> q.segments[i + shift].args == p.segments[i].args;
      assert forall j :: 0 <= j < shift ==> q.segments[j].args == NoArgs;
      forall m | m in PathMarkers(other, q)
        ensures m in PathMarkers(other, p)
      {
        var j :| 0 <= j < |q.segments| && m in ArgMarkers(other, q.segments[j].args);
        assert p.segments[j - shift].args == q.segments[j].args;
      }
      forall m | m in PathMarkers(other, p)
        ensures m in PathMarkers(other, q)
      {
        var i :| 0 <= i < |p.segments| && m in ArgMarkers(other, p.segments[i].args);
        assert q.segments[i + shift].args == p.segments[i].args;
      }
    }
  }

  /** The markers raised inside generic arguments, at any depth. */
  lemma {:induction false} PathMarkersCommute(at: Place, p: Path)
    requires FullySound(at) && PathFits(at.fits, p)
    ensures PathMarkers(TargetOf(at), QualifyPath(at.names, p)) == PathMarkers(at.table, p)
    decreases p, 0
  {
    var t, q := TargetOf(at), OnArgs(p, Qualifier(at.names));
    if !ModelPath(q) {
      FittingResolves(at, q);
      CanonicalKeepsPathMarkers(at.table, t, q);
    }
    forall i | 0 <= i < |p.segments|
      ensures ArgMarkers(t, q.segments[i].args) == ArgMarkers(at.table, p.segments[i].args)
    {
      ArgMarkersCommute(at, p.segments[i].args);
    }
    SameArgMarkers(t, q, at.table, p);
  }

  lemma SameArgMarkers(t: Table, q: Path, table: Table, p: Path)
    requires |q.segments| == |p.segments|
    requires forall i :: 0 <= i < |p.segments| ==>
               ArgMarkers(t, q.segments[i].args) == ArgMarkers(table, p.segments[i].args)
    ensures PathMarkers(t, q) == PathMarkers(table, p)
  {
  }

  ghost predicate TypeMarkersAgree(at: Place, ty: Path) {
    TypeMarkers(TargetOf(at), QualifyType(at.names, ty)) == TypeMarkers(at.table, ty)
  }

  lemma {:induction false} ArgMarkersCommute(at: Place, args: Args)
    requires FullySound(at) && ArgsFit(at.fits, args)
    ensures ArgMarkers(TargetOf(at), QualifyArgs(at.names, args)) == ArgMarkers(at.table, args)
    decreases args, 0
  {
    if args.Angle? {
      forall i | 0 <= i < |args.types|
        ensures TypeMarkersAgree(at, args.types[i])
      {
        PathMarkersCommute(at, args.types[i]);
        TypeMarkersFollow(at, args.types[i]);
      }
      ArgMarkersFollow(at, args.types);
    }
  }

  lemma TypeMarkersFollow(at: Place, ty: Path)
    requires FullySound(at) && PathFits(at.fits, ty)
    requires PathMarkers(TargetOf(at), QualifyPath(at.names, ty)) == PathMarkers(at.table, ty)
    ensures TypeMarkersAgree(at, ty)
  {
    BothKeepShape(at.table, at.names);
    QualifiedTypesArePaths(at.names, ty);
    TypeRuleSpares();
    OwnMarkersCommute(at, ty, TypeRule, Qualifier(at.names));
  }

  lemma {:induction false} ArgMarkersFollow(at: Place, types: seq<Path>)
    requires forall i :: 0 <= i < |types| ==> TypeMarkersAgree(at, types[i])
    ensures ArgMarkers(TargetOf(at), QualifyArgs(at.names, Angle(types))) == ArgMarkers(at.table, Angle(types))
  {
    var t, q := TargetOf(at), QualifyArgs(at.names, Angle(types));
    assert forall i :: 0 <= i < |types| ==>
        TypeMarkersAgree(at, types[i]) && q.types[i] == QualifyType(at.names, types[i]);
  }

}
