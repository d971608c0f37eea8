/** The public reference verifier: a scan of captured probe events that reports
    a two-resource lock-order cycle. */
module LockOrder {

  import opened Options

  type ThreadId = nat

  /** A resource name. Names are only ever compared, so each is a number. */
  type Resource = nat

  datatype HoldMode = Exclusive | Shared

  /** The six lock events the scan looks at; every other variant is `Unrelated`. */
  datatype ProbeEvent =
    | LockAcquired(thread: ThreadId, resource: Resource)
    | LockReleased(thread: ThreadId, resource: Resource)
    | RwLockReadAcquired(thread: ThreadId, resource: Resource)
    | RwLockReadReleased(thread: ThreadId, resource: Resource)
    | RwLockWriteAcquired(thread: ThreadId, resource: Resource)
    | RwLockWriteReleased(thread: ThreadId, resource: Resource)
    | Unrelated(code: nat)

  /** What one lock event does to the thread that performs it. */
  datatype LockOp = Acquire(resource: Resource, mode: HoldMode) | Release(resource: Resource)

  datatype Hold = Hold(resource: Resource, mode: HoldMode)

  /** Some thread took `acquired` while it held `held`. */
  datatype Edge = Edge(held: Resource, heldMode: HoldMode, acquired: Resource, acquiredMode: HoldMode)

  /** The reported cycle `prior -> resource -> prior`. */
  datatype Cycle = Cycle(prior: Resource, resource: Resource)

  datatype Verdict = Clean | BugFound(targetName: string, cycle: Cycle)
  datatype VerifyResult = VerifyResult(verdict: Verdict, eventsCollected: nat)

  predicate ModesConflict(a: HoldMode, b: HoldMode) {
    !(a == Shared && b == Shared)
  }

  function OpOf(e: ProbeEvent): Option<LockOp> {
    match e
    case LockAcquired(_, r) => Some(Acquire(r, Exclusive))
    case RwLockWriteAcquired(_, r) => Some(Acquire(r, Exclusive))
    case RwLockReadAcquired(_, r) => Some(Acquire(r, Shared))
    case LockReleased(_, r) => Some(Release(r))
    case RwLockWriteReleased(_, r) => Some(Release(r))
    case RwLockReadReleased(_, r) => Some(Release(r))
    case Unrelated(_) => None
  }

  // ---------- one thread ----------

  predicate Holds(held: seq<Hold>, r: Resource) {
    exists i :: 0 <= i < |held| && held[i].resource == r
  }

  function Without(held: seq<Hold>, r: Resource): (rest: seq<Hold>)
    ensures forall h :: h in rest <==> h in held && h.resource != r
  {
    if held == [] then []
    else (if held[0].resource == r then [] else [held[0]]) + Without(held[1..], r)
  }

  function AfterOp(held: seq<Hold>, op: LockOp): seq<Hold> {
    match op
    case Acquire(r, m) => if Holds(held, r) then held else held + [Hold(r, m)]
    case Release(r) => Without(held, r)
  }

  /** What a thread holds once it has performed `ops`. */
  function HeldAfter(ops: seq<LockOp>): seq<Hold> {
    if ops == [] then [] else AfterOp(HeldAfter(ops[..|ops| - 1]), ops[|ops| - 1])
  }

  function EdgesInto(held: seq<Hold>, op: LockOp): set<Edge> {
    match op
    case Acquire(r, m) => set h | h in held && h.resource != r :: Edge(h.resource, h.mode, r, m)
    case Release(_) => {}
  }

  /** Every "took one resource while holding another" of a thread program. */
  function OrderEdges(ops: seq<LockOp>): set<Edge> {
    if ops == [] then {}
    else
      var before := ops[..|ops| - 1];
      OrderEdges(before) + EdgesInto(HeldAfter(before), ops[|ops| - 1])
  }

  // ---------- the whole trace ----------

  /** The lock program thread `t` ran, as the trace recorded it. */
  function Projection(events: seq<ProbeEvent>, t: ThreadId): seq<LockOp> {
    if events == [] then []
    else
      var before := Projection(events[..|events| - 1], t);
      var last := events[|events| - 1];
      if OpOf(last).Some? && last.thread == t then before + [OpOf(last).value] else before
  }

  /** What thread `t` holds at the end of the trace. */
  function ThreadHolds(events: seq<ProbeEvent>, t: ThreadId): seq<Hold> {
    HeldAfter(Projection(events, t))
  }

  function EventEdges(before: seq<ProbeEvent>, e: ProbeEvent): set<Edge> {
    if OpOf(e).None? then {} else EdgesInto(ThreadHolds(before, e.thread), OpOf(e).value)
  }

  function TraceEdges(events: seq<ProbeEvent>): set<Edge> {
    if events == [] then {}
    else
      var before := events[..|events| - 1];
      TraceEdges(before) + EventEdges(before, events[|events| - 1])
  }

  /** Each edge's thread could be made to wait for the other's. */
  predicate Opposed(e: Edge, f: Edge) {
    && e.held == f.acquired && e.acquired == f.held
    && ModesConflict(e.acquiredMode, f.heldMode)
    && ModesConflict(f.acquiredMode, e.heldMode)
  }

  ghost predicate HasCycle(edges: set<Edge>) {
    exists e, f :: e in edges && f in edges && Opposed(e, f)
  }

  function Describe(e: Edge): Cycle {
    Cycle(e.held, e.acquired)
  }

  // ---------- the scan ----------

  /** Taking `r` in mode `m` while holding `h` closes a cycle with a recorded edge. */
  ghost predicate Closes(recorded: set<Edge>, h: Hold, r: Resource, m: HoldMode) {
    h.resource != r && exists f :: f in recorded && Opposed(Edge(h.resource, h.mode, r, m), f)
  }

  /** The first hold, in the order of the list, that closes one. */
  ghost predicate FirstCloses(recorded: set<Edge>, held: seq<Hold>, r: Resource, m: HoldMode, k: int) {
    0 <= k < |held| && Closes(recorded, held[k], r, m) && forall l :: 0 <= l < k ==> !Closes(recorded, held[l], r, m)
  }

  /** Event `i` is the first that closes a cycle, and `c` names the first hold it closes one with. */
  ghost predicate Reported(events: seq<ProbeEvent>, i: int, c: Cycle) {
    && 0 <= i < |events| && !HasCycle(TraceEdges(events[..i]))
    && exists m, k :: && OpOf(events[i]) == Some(Acquire(c.resource, m))
                      && var held := ThreadHolds(events[..i], events[i].thread);
                         && FirstCloses(TraceEdges(events[..i]), held, c.resource, m, k)
                         && c.prior == held[k].resource
  }

  /** Checks the edges of one acquisition against the edges recorded so far,
      recording each, and stops at the first that closes a cycle. */
  method RecordAcquisition(held: seq<Hold>, r: Resource, m: HoldMode, recorded: set<Edge>)
    returns (cycle: Option<Edge>, edges: set<Edge>)
    requires !HasCycle(recorded)
    ensures cycle.None? ==> edges == recorded + EdgesInto(held, Acquire(r, m)) && !HasCycle(edges)
    ensures cycle.Some? ==>
              && cycle.value in EdgesInto(held, Acquire(r, m))
              && exists f :: f in recorded && Opposed(cycle.value, f)
    ensures cycle.Some? ==>
              exists k :: FirstCloses(recorded, held, r, m, k)
                          && cycle.value == Edge(held[k].resource, held[k].mode, r, m)
  {
    cycle, edges := None, recorded;
    for k := 0 to |held|
      invariant edges == recorded + EdgesInto(held[..k], Acquire(r, m))
      invariant !HasCycle(edges)
      invariant forall l :: 0 <= l < k ==> !Closes(recorded, held[l], r, m)
    {
      var prior := held[k];
      assert held[..k + 1] == held[..k] + [prior];
      if prior.resource != r {
        var edge := Edge(prior.resource, prior.mode, r, m);
        assert edge in EdgesInto(held, Acquire(r, m));
        if exists f :: f in edges && Opposed(edge, f) {
          assert FirstCloses(recorded, held, r, m, k);
          return Some(edge), edges;
        }
        edges := edges + {edge};
      }
    }
    assert held[..|held|] == held;
  }

  /** `held` records, thread by thread, what the threads of the trace hold. */
  ghost predicate Tracks(held: map<ThreadId, seq<Hold>>, events: seq<ProbeEvent>) {
    forall t: ThreadId :: (if t in held then held[t] else []) == ThreadHolds(events, t)
  }

  lemma HoldsStep(events: seq<ProbeEvent>, i: nat, t: ThreadId)
    requires i < |events|
    ensures var op, held := OpOf(events[i]), ThreadHolds(events[..i], t);
            ThreadHolds(events[..i + 1], t) ==
            if op.Some? && events[i].thread == t then AfterOp(held, op.value) else held
  {
    assert events[..i + 1][..i] == events[..i];
    var ops, op := Projection(events[..i], t), OpOf(events[i]);
    if op.Some? && events[i].thread == t {
      assert (ops + [op.value])[..|ops|] == ops;
    }
  }

  lemma EdgesStep(events: seq<ProbeEvent>, i: nat)
    requires i < |events|
    ensures TraceEdges(events[..i + 1]) == TraceEdges(events[..i]) + EventEdges(events[..i], events[i])
  {
    assert events[..i + 1][..i] == events[..i];
  }

  /** The scan's bookkeeping for one event. */
  function NextHeld(held: map<ThreadId, seq<Hold>>, e: ProbeEvent): map<ThreadId, seq<Hold>> {
    match OpOf(e)
    case None => held
    case Some(Acquire(r, m)) =>
      held[e.thread := AfterOp(if e.thread in held then held[e.thread] else [], Acquire(r, m))]
    case Some(Release(r)) =>
      if e.thread in held then held[e.thread := Without(held[e.thread], r)] else held
  }

  lemma TracksStep(held: map<ThreadId, seq<Hold>>, events: seq<ProbeEvent>, i: nat)
    requires i < |events| && Tracks(held, events[..i])
    ensures Tracks(NextHeld(held, events[i]), events[..i + 1])
  {
    var held' := NextHeld(held, events[i]);
    forall t: ThreadId
      ensures (if t in held' then held'[t] else []) == ThreadHolds(events[..i + 1], t)
    {
      HoldsStep(events, i, t);
    }
  }

  lemma ReportedEdge(events: seq<ProbeEvent>, i: nat, e: Edge)
    requires i < |events| && e in EventEdges(events[..i], events[i])
    requires exists f :: f in TraceEdges(events[..i]) && Opposed(e, f)
    ensures e in TraceEdges(events) && exists f :: f in TraceEdges(events) && Opposed(e, f)
  {
    EdgesStep(events, i);
    EdgesOfPrefix(events, i + 1);
    var f :| f in TraceEdges(events[..i]) && Opposed(e, f);
    assert f in TraceEdges(events);
  }

  /** The lock-order scan. It reports exactly the traces whose edges contain an
      opposed pair, and the description names such a pair. */
  method FindLockOrderCycle(events: seq<ProbeEvent>) returns (cycle: Option<Cycle>)
    ensures cycle.Some? <==> HasCycle(TraceEdges(events))
    ensures cycle.Some? ==>
              exists e, f :: e in TraceEdges(events) && f in TraceEdges(events) && Opposed(e, f)
                             && cycle.value == Cycle(e.held, e.acquired)
    ensures cycle.Some? ==> exists i :: Reported(events, i, cycle.value)
  {
    var heldByThread: map<ThreadId, seq<Hold>> := map[];
    var orderEdges: set<Edge> := {};
    for i := 0 to |events|
      invariant Tracks(heldByThread, events[..i])
      invariant orderEdges == TraceEdges(events[..i])
      invariant !HasCycle(orderEdges)
    {
      EdgesStep(events, i);
      var op := OpOf(events[i]);
      TracksStep(heldByThread, events, i);
      if op.Some? {
        var t := events[i].thread;
        match op.value
        case Acquire(r, m) =>
          var held := if t in heldByThread then heldByThread[t] else [];
          var closing, edges := RecordAcquisition(held, r, m, orderEdges);
          if closing.Some? {
            ReportedEdge(events, i, closing.value);
            assert Reported(events, i, Describe(closing.value));
            return Some(Describe(closing.value));
          }
          orderEdges := edges;
          heldByThread := heldByThread[t := if Holds(held, r) then held else held + [Hold(r, m)]];
        case Release(r) =>
          if t in heldByThread {
            heldByThread := heldByThread[t := Without(heldByThread[t], r)];
          }
      }
    }
    assert events[..|events|] == events;
    return None;
  }

  /** Wraps the scan's answer as the verdict a harness asserts on. */
  method RunVerificationFrom(events: seq<ProbeEvent>, targetName: string) returns (result: VerifyResult)
    ensures result.verdict.Clean? <==> !HasCycle(TraceEdges(events))
    ensures result.verdict.BugFound? ==>
              && result.verdict.targetName == targetName
              && exists e, f :: e in TraceEdges(events) && f in TraceEdges(events) && Opposed(e, f)
                                && result.verdict.cycle == Cycle(e.held, e.acquired)
    ensures result.verdict.BugFound? ==> exists i :: Reported(events, i, result.verdict.cycle)
    ensures result.eventsCollected == |events|
  {
    var cycle := FindLockOrderCycle(events);
    match cycle
    case None => result := VerifyResult(Clean, |events|);
    case Some(c) => result := VerifyResult(BugFound(targetName, c), |events|);
  }

  /** The edges of a prefix are edges of the whole trace. */
  lemma {:induction false} EdgesOfPrefix(events: seq<ProbeEvent>, n: nat)
    requires n <= |events|
    ensures TraceEdges(events[..n]) <= TraceEdges(events)
    decreases |events|
  {
    if n == |events| {
      assert events[..n] == events;
    } else {
      assert events[..|events| - 1][..n] == events[..n];
      EdgesOfPrefix(events[..|events| - 1], n);
    }
  }

  // ---------- what the verdict means ----------

  /** Event `i` takes a resource while its thread holds another, leaving edge `e`. */
  ghost predicate TakesWhileHolding(events: seq<ProbeEvent>, i: int, e: Edge) {
    0 <= i < |events| && e in EventEdges(events[..i], events[i])
  }

  lemma {:induction false} EdgeHasEvent(events: seq<ProbeEvent>, e: Edge) returns (i: nat)
    requires e in TraceEdges(events)
    ensures TakesWhileHolding(events, i, e)
    decreases |events|
  {
    var n := |events| - 1;
    if e in TraceEdges(events[..n]) {
      i := EdgeHasEvent(events[..n], e);
      assert events[..n][..i] == events[..i];
    } else {
      i := n;
    }
  }

  lemma EventHasEdge(events: seq<ProbeEvent>, i: nat, e: Edge)
    requires TakesWhileHolding(events, i, e)
    ensures e in TraceEdges(events)
  {
    assert events[..i + 1][..i] == events[..i];
    assert e in TraceEdges(events[..i + 1]);
    EdgesOfPrefix(events, i + 1);
  }

  /** Exact characterisation: a bug is reported iff one event takes `r` while its
      thread holds `p`, another takes `p` while its thread holds `r`, the two
      resources differ, and both waits conflict in mode. */
  lemma CycleIffTwoAcquisitions(events: seq<ProbeEvent>)
    ensures HasCycle(TraceEdges(events)) <==>
            exists i, j, p: Resource, pm, r: Resource, rm, wantR, wantP ::
              && p != r
              && TakesWhileHolding(events, i, Edge(p, pm, r, wantR))
              && TakesWhileHolding(events, j, Edge(r, rm, p, wantP))
              && ModesConflict(wantR, rm) && ModesConflict(wantP, pm)
  {
    if HasCycle(TraceEdges(events)) {
      var e, f :| e in TraceEdges(events) && f in TraceEdges(events) && Opposed(e, f);
      var i := EdgeHasEvent(events, e);
      var j := EdgeHasEvent(events, f);
      assert e == Edge(e.held, e.heldMode, e.acquired, e.acquiredMode);
      assert f == Edge(e.acquired, f.heldMode, e.held, f.acquiredMode);
    }
    if i, j, p: Resource, pm, r: Resource, rm, wantR, wantP :|
      && p != r
      && TakesWhileHolding(events, i, Edge(p, pm, r, wantR))
      && TakesWhileHolding(events, j, Edge(r, rm, p, wantP))
      && ModesConflict(wantR, rm) && ModesConflict(wantP, pm)
    {
      EventHasEdge(events, i, Edge(p, pm, r, wantR));
      EventHasEdge(events, j, Edge(r, rm, p, wantP));
      assert Opposed(Edge(p, pm, r, wantR), Edge(r, rm, p, wantP));
    }
  }

  /** Thread `t`'s own program contains edge `e`. */
  ghost predicate ThreadTakes(events: seq<ProbeEvent>, t: ThreadId, e: Edge) {
    e in OrderEdges(Projection(events, t))
  }

  lemma ThreadTakesStep(events: seq<ProbeEvent>, t: ThreadId, e: Edge)
    requires events != []
    ensures var n := |events| - 1;
            ThreadTakes(events, t, e) <==>
            || ThreadTakes(events[..n], t, e)
            || (OpOf(events[n]).Some? && events[n].thread == t && e in EventEdges(events[..n], events[n]))
  {
    var n := |events| - 1;
    if OpOf(events[n]).Some? && events[n].thread == t {
      var ops := Projection(events, t);
      assert ops[..|ops| - 1] == Projection(events[..n], t);
    }
  }

  lemma {:induction false} EdgeHasThread(events: seq<ProbeEvent>, e: Edge) returns (t: ThreadId)
    requires e in TraceEdges(events)
    ensures ThreadTakes(events, t, e)
    decreases |events|
  {
    var n := |events| - 1;
    if e in TraceEdges(events[..n]) {
      t := EdgeHasThread(events[..n], e);
    } else {
      t := events[n].thread;
    }
    ThreadTakesStep(events, t, e);
  }

  lemma {:induction false} ThreadHasEdge(events: seq<ProbeEvent>, t: ThreadId, e: Edge)
    requires ThreadTakes(events, t, e)
    ensures e in TraceEdges(events)
    decreases |events|
  {
    if events != [] {
      ThreadTakesStep(events, t, e);
      if ThreadTakes(events[..|events| - 1], t, e) {
        ThreadHasEdge(events[..|events| - 1], t, e);
      }
    }
  }

  /** The trace's edges are those of its threads' programs, so how the threads
      were interleaved does not matter. */
  lemma EdgesAreThreadEdges(events: seq<ProbeEvent>)
    ensures forall e :: e in TraceEdges(events) <==> exists t: ThreadId :: ThreadTakes(events, t, e)
  {
    forall e | e in TraceEdges(events)
      ensures exists t: ThreadId :: ThreadTakes(events, t, e)
    {
      var t := EdgeHasThread(events, e);
    }
    forall e, t: ThreadId | ThreadTakes(events, t, e)
      ensures e in TraceEdges(events)
    {
      ThreadHasEdge(events, t, e);
    }
  }

  /** Trace equivalence: traces with the same per-thread lock programs get the same verdict. */
  lemma VerdictIgnoresInterleaving(a: seq<ProbeEvent>, b: seq<ProbeEvent>)
    requires forall t: ThreadId :: Projection(a, t) == Projection(b, t)
    ensures TraceEdges(a) == TraceEdges(b)
    ensures HasCycle(TraceEdges(a)) <==> HasCycle(TraceEdges(b))
  {
    forall e, t: ThreadId
      ensures ThreadTakes(a, t, e) <==> ThreadTakes(b, t, e)
    {
    }
    EdgesAreThreadEdges(a);
    EdgesAreThreadEdges(b);
  }

  /** A bug found on a prefix is still found on every extension. */
  lemma BugPersists(events: seq<ProbeEvent>, more: seq<ProbeEvent>)
    requires HasCycle(TraceEdges(events))
    ensures HasCycle(TraceEdges(events + more))
  {
    assert (events + more)[..|events|] == events;
    EdgesOfPrefix(events + more, |events|);
  }

  /** An operation of a projection comes from an event of the trace. */
  lemma {:induction false} ProjectedFromEvent(events: seq<ProbeEvent>, t: ThreadId, op: LockOp)
    requires op in Projection(events, t)
    ensures exists i :: 0 <= i < |events| && OpOf(events[i]) == Some(op)
    decreases |events|
  {
    var n := |events| - 1;
    if op in Projection(events[..n], t) {
      ProjectedFromEvent(events[..n], t, op);
      var i :| 0 <= i < n && OpOf(events[..n][i]) == Some(op);
      assert OpOf(events[i]) == Some(op);
    } else {
      assert OpOf(events[n]) == Some(op);
    }
  }

  ghost predicate ReadOnly(ops: seq<LockOp>) {
    forall op :: op in ops && op.Acquire? ==> op.mode == Shared
  }

  lemma {:induction false} ReadOnlyProgram(ops: seq<LockOp>)
    requires ReadOnly(ops)
    ensures forall h :: h in HeldAfter(ops) ==> h.mode == Shared
    ensures forall e :: e in OrderEdges(ops) ==> e.heldMode == Shared && e.acquiredMode == Shared
    decreases |ops|
  {
    if ops != [] {
      var before, last := ops[..|ops| - 1], ops[|ops| - 1];
      assert last in ops && forall op :: op in before ==> op in ops;
      ReadOnlyProgram(before);
    }
  }

  lemma ReadOnlyEdge(events: seq<ProbeEvent>, e: Edge)
    requires forall i :: 0 <= i < |events| ==> !events[i].LockAcquired? && !events[i].RwLockWriteAcquired?
    requires e in TraceEdges(events)
    ensures e.heldMode == Shared && e.acquiredMode == Shared
  {
    var t := EdgeHasThread(events, e);
    var ops := Projection(events, t);
    forall op | op in ops
      ensures op.Acquire? ==> op.mode == Shared
    {
      ProjectedFromEvent(events, t, op);
    }
    ReadOnlyProgram(ops);
  }

  /** A trace that only ever takes read locks is clean. */
  lemma ReadOnlyIsClean(events: seq<ProbeEvent>)
    requires forall i :: 0 <= i < |events| ==> !events[i].LockAcquired? && !events[i].RwLockWriteAcquired?
    ensures !HasCycle(TraceEdges(events))
  {
    forall e, f | e in TraceEdges(events) && f in TraceEdges(events)
      ensures !Opposed(e, f)
    {
      ReadOnlyEdge(events, e);
      ReadOnlyEdge(events, f);
    }
  }

  /** A trace whose threads always take resources in increasing rank is clean. */
  lemma RankedIsClean(events: seq<ProbeEvent>, rank: Resource -> int)
    requires forall i, e :: TakesWhileHolding(events, i, e) ==> rank(e.held) < rank(e.acquired)
    ensures !HasCycle(TraceEdges(events))
  {
    forall e | e in TraceEdges(events)
      ensures rank(e.held) < rank(e.acquired)
    {
      var i := EdgeHasEvent(events, e);
    }
  }

}
