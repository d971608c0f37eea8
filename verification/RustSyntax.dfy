/** The slice of Rust syntax the model attribute rewrites. */
module RustSyntax {


  /** Identifiers, spelled as in Rust. Those the rewrite tables do not mention are `Other`;
      `Atomic(k)` is one of the twelve std atomic types. */
  datatype Ident =
    | tokio | std | sync | thread | spawn | task | time | select | selfName | newName | const_new
    | Mutex | RwLock | Semaphore | Notify
    | mpsc | oneshot | watch | broadcast | channel | unbounded_channel
    | Sender | Receiver | UnboundedSender | UnboundedReceiver | Ref
    | sleep | timeout | interval | Sleep | Timeout | Interval
    | Instant | sleep_until | interval_at | timeout_at | advance | pause | resume
    | spawn_blocking | spawn_local | spawn_task | laplace_select
    | arc_swap | ArcSwap | ArcSwapOption | ArcSwapAny | ArcSwapWeak
    | Condvar | atomic | Atomic(k: nat)
    | laplace_sdk | rt | ModelMutex | ModelRwLock
    | ModelAsyncMutex | ModelAsyncRwLock | ModelAsyncSemaphore | ModelAsyncNotify
    | Other(name: nat)

  /** Generic arguments of a path segment. */
  datatype Args = NoArgs | Angle(types: seq<Path>)

  datatype Segment = Segment(ident: Ident, args: Args)

  datatype Path = Path(leadingColon: bool, segments: seq<Segment>)

  /** What the rewrite tables look at: the name, and whether it carries no arguments. */
  datatype Head = Head(ident: Ident, plain: bool)

  function Heads(segs: seq<Segment>): seq<Head> {
    seq(|segs|, i requires 0 <= i < |segs| => Head(segs[i].ident, segs[i].args.NoArgs?))
  }

  function MapArgs(segs: seq<Segment>, f: Args -> Args): seq<Segment> {
    seq(|segs|, i requires 0 <= i < |segs| => Segment(segs[i].ident, f(segs[i].args)))
  }

  /** An arguments map that neither adds nor removes argument lists. */
  ghost predicate KeepsShape(f: Args -> Args) {
    f(NoArgs) == NoArgs && forall a :: f(a).NoArgs? <==> a.NoArgs?
  }

  lemma MapKeepsHeads(segs: seq<Segment>, f: Args -> Args)
    requires KeepsShape(f)
    ensures Heads(MapArgs(segs, f)) == Heads(segs)
  {
  }

  datatype UseTree =
    | UsePath(ident: Ident, tree: UseTree)
    | UseName(ident: Ident)
    | UseRename(ident: Ident, rename: Ident)
    | UseGroup(items: seq<UseTree>)
    | UseGlob

  /** Code, as far as paths occur in it: calls, types, macro invocations and plain path
      expressions, in any nesting. */
  datatype Node =
    | Call(func: Path, args: seq<Node>)
    | TypeUse(ty: Path)
    | MacroUse(path: Path)
    | PathUse(path: Path)
    | Nest(nodes: seq<Node>)

}
