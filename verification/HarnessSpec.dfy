/** The static harness check: opposite acquisition orders between two thread
    programs, and how it relates to the trace verifier. */
module HarnessSpec {

  import opened LockOrder

  datatype ThreadAction =
    | Gate(id: nat)
    | ReleaseGate(id: nat)
    | AcquireResource(resource: Resource)
    | ReleaseResource(resource: Resource)
    | Finish

  datatype ThreadSpec = ThreadSpec(id: string, actions: seq<ThreadAction>)

  datatype Pair = Pair(first: Resource, second: Resource)

  /** The lock operations of a thread program, every acquisition exclusive. */
  function LockOps(actions: seq<ThreadAction>): seq<LockOp> {
    if actions == [] then []
    else
      var before := LockOps(actions[..|actions| - 1]);
      match actions[|actions| - 1]
      case AcquireResource(r) => before + [Acquire(r, Exclusive)]
      case ReleaseResource(r) => before + [Release(r)]
      case _ => before
  }

  /** A program takes `r` while it already holds `r`. */
  ghost predicate Retakes(ops: seq<LockOp>, r: Resource) {
    exists k :: 0 <= k < |ops| && ops[k].Acquire? && ops[k].resource == r && Holds(HeldAfter(ops[..k]), r)
  }

  /** What `held_acquisition_pairs` records: the order edges, plus (r, r) for a resource taken twice. */
  ghost predicate Recorded(ops: seq<LockOp>, p: Pair) {
    if p.first == p.second then Retakes(ops, p.first)
    else Edge(p.first, Exclusive, p.second, Exclusive) in OrderEdges(ops)
  }

  predicate Reversed(p: Pair, q: Pair) {
    p.first == q.second && p.second == q.first
  }

  ghost predicate AllExclusive(held: seq<Hold>) {
    forall h :: h in held ==> h.mode == Exclusive
  }

  lemma {:induction false} LockOpsAreExclusive(actions: seq<ThreadAction>)
    ensures AllExclusive(HeldAfter(LockOps(actions)))
    ensures forall e :: e in OrderEdges(LockOps(actions)) ==>
              e.heldMode == Exclusive && e.acquiredMode == Exclusive && e.held != e.acquired
    decreases |actions|
  {
    if actions != [] {
      var before := actions[..|actions| - 1];
      LockOpsAreExclusive(before);
      var ops := LockOps(actions);
      if ops != LockOps(before) {
        assert ops[..|ops| - 1] == LockOps(before);
      }
    }
  }

  lemma RecordedStep(ops: seq<LockOp>, op: LockOp, p: Pair)
    requires AllExclusive(HeldAfter(ops))
    requires op.Acquire? ==> op.mode == Exclusive
    ensures Recorded(ops + [op], p) <==>
            Recorded(ops, p) || (op.Acquire? && op.resource == p.second && Holds(HeldAfter(ops), p.first))
  {
    var n := |ops|;
    assert (ops + [op])[..n] == ops;
    if p.first == p.second {
      forall k | 0 <= k < n
        ensures (ops + [op])[..k] == ops[..k] && (ops + [op])[k] == ops[k]
      {
      }
      assert (ops + [op])[n] == op;
      if Retakes(ops, p.first) {
        var k :| 0 <= k < n && ops[k].Acquire? && ops[k].resource == p.first && Holds(HeldAfter(ops[..k]), p.first);
        assert (ops + [op])[k].Acquire? && Holds(HeldAfter((ops + [op])[..k]), p.first);
      }
    } else {
      assert OrderEdges(ops + [op]) == OrderEdges(ops) + EdgesInto(HeldAfter(ops), op);
      if op.Acquire? && Holds(HeldAfter(ops), p.first) {
        var i :| 0 <= i < |HeldAfter(ops)| && HeldAfter(ops)[i].resource == p.first;
        assert HeldAfter(ops)[i] == Hold(p.first, Exclusive);
      }
    }
  }

  lemma HoldsStep(ops: seq<LockOp>, op: LockOp, x: Resource)
    ensures Holds(HeldAfter(ops + [op]), x) <==>
            if op.Acquire? then x == op.resource || Holds(HeldAfter(ops), x)
            else x != op.resource && Holds(HeldAfter(ops), x)
  {
    assert (ops + [op])[..|ops|] == ops;
    var held, after := HeldAfter(ops), AfterOp(HeldAfter(ops), op);
    if Holds(held, x) && (op.Acquire? || x != op.resource) {
      var i :| 0 <= i < |held| && held[i].resource == x;
      assert held[i] in after;
    }
    if op.Acquire? && !Holds(held, op.resource) {
      assert after[|held|].resource == op.resource;
    }
    if Holds(after, x) {
      var i :| 0 <= i < |after| && after[i].resource == x;
      assert after[i] in held || after[i].resource == op.resource;
    }
  }

  /** The scan's state after some actions: what is held, and the pairs recorded. */
  ghost predicate Scanned(ops: seq<LockOp>, held: seq<Resource>, pairs: seq<Pair>) {
    && (forall x :: x in held <==> Holds(HeldAfter(ops), x))
    && (forall p :: p in pairs <==> Recorded(ops, p))
  }

  lemma ScannedStep(ops: seq<LockOp>, op: LockOp, held: seq<Resource>, pairs: seq<Pair>,
                    held': seq<Resource>, pairs': seq<Pair>)
    requires Scanned(ops, held, pairs) && AllExclusive(HeldAfter(ops)) && (op.Acquire? ==> op.mode == Exclusive)
    requires forall x :: x in held' <==>
               if op.Acquire? then x == op.resource || x in held else x != op.resource && x in held
    requires forall p :: p in pairs' <==> p in pairs || (op.Acquire? && op.resource == p.second && p.first in held)
    ensures Scanned(ops + [op], held', pairs')
  {
    forall x
      ensures x in held' <==> Holds(HeldAfter(ops + [op]), x)
    {
      HoldsStep(ops, op, x);
    }
    forall p
      ensures p in pairs' <==> Recorded(ops + [op], p)
    {
      RecordedStep(ops, op, p);
    }
  }

  /** Pairs `r` with everything already held. */
  method PairWithHeld(held: seq<Resource>, r: Resource, pairs: seq<Pair>) returns (more: seq<Pair>)
    ensures forall p :: p in more <==> p in pairs || (r == p.second && p.first in held)
  {
    more := pairs;
    for j := 0 to |held|
      invariant forall p :: p in more <==> p in pairs || (r == p.second && p.first in held[..j])
    {
      more := more + [Pair(held[j], r)];
    }
    assert held[..|held|] == held;
  }

  lemma LockOpsStep(actions: seq<ThreadAction>, i: nat)
    requires i < |actions|
    ensures LockOps(actions[..i + 1]) == LockOps(actions[..i]) +
            match actions[i]
            case AcquireResource(r) => [Acquire(r, Exclusive)]
            case ReleaseResource(r) => [Release(r)]
            case _ => []
    ensures AllExclusive(HeldAfter(LockOps(actions[..i])))
  {
    assert actions[..i + 1][..i] == actions[..i];
    LockOpsAreExclusive(actions[..i]);
  }

  lemma ScannedNothing()
    ensures Scanned([], [], [])
  {
  }

  /** The pairs a thread program acquires one inside the other. */
  method HeldAcquisitionPairs(thread: ThreadSpec) returns (pairs: seq<Pair>)
    ensures forall p :: p in pairs <==> Recorded(LockOps(thread.actions), p)
  {
    var actions := thread.actions;
    var held: seq<Resource> := [];
    pairs := [];
    ScannedNothing();
    for i := 0 to |actions|
      invariant Scanned(LockOps(actions[..i]), held, pairs)
    {
      LockOpsStep(actions, i);
      ghost var ops, held0, pairs0 := LockOps(actions[..i]), held, pairs;
      match actions[i] {
        case AcquireResource(r) =>
          pairs := PairWithHeld(held, r, pairs);
          if r !in held {
            held := held + [r];
          }
          ScannedStep(ops, Acquire(r, Exclusive), held0, pairs0, held, pairs);
        case ReleaseResource(r) =>
          held := Retain(held, r);
          ScannedStep(ops, Release(r), held0, pairs0, held, pairs);
        case _ =>
          assert ops + [] == ops;
      }
    }
    assert actions[..|actions|] == actions;
  }

  /** `held.retain(|h| h != r)`. */
  function Retain(held: seq<Resource>, r: Resource): (rest: seq<Resource>)
    ensures forall x :: x in rest <==> x in held && x != r
  {
    if held == [] then []
    else (if held[0] == r then [] else [held[0]]) + Retain(held[1..], r)
  }

  predicate AnyReversed(a: seq<Pair>, b: seq<Pair>) {
    exists p, q :: p in a && q in b && Reversed(p, q)
  }

  /** Two different threads hold a pair of resources in opposite orders. */
  ghost predicate Abba(threads: seq<ThreadSpec>) {
    exists i, j, p, q :: 0 <= i < j < |threads| && Crossed(threads, i, j, p, q)
  }

  ghost predicate Crossed(threads: seq<ThreadSpec>, i: int, j: int, p: Pair, q: Pair) {
    && 0 <= i < |threads| && 0 <= j < |threads|
    && Recorded(LockOps(threads[i].actions), p) && Recorded(LockOps(threads[j].actions), q) && Reversed(p, q)
  }

  method AcquisitionPairsConflict(a: ThreadSpec, b: ThreadSpec) returns (conflict: bool)
    ensures conflict <==>
            exists p, q :: Recorded(LockOps(a.actions), p) && Recorded(LockOps(b.actions), q) && Reversed(p, q)
  {
    var aPairs := HeldAcquisitionPairs(a);
    var bPairs := HeldAcquisitionPairs(b);
    conflict := AnyReversed(aPairs, bPairs);
  }

  /** The ABBA check over every pair of threads. */
  method DetectsAbbaDeadlock(threads: seq<ThreadSpec>) returns (found: bool)
    ensures found <==> Abba(threads)
  {
    for i := 0 to |threads|
      invariant forall k, j, p, q :: 0 <= k < i && k < j < |threads| ==> !Crossed(threads, k, j, p, q)
    {
      for j := i + 1 to |threads|
        invariant forall l, p, q :: i < l < j ==> !Crossed(threads, i, l, p, q)
      {
        var conflict := AcquisitionPairsConflict(threads[i], threads[j]);
        if conflict {
          ghost var p, q :|
            && Recorded(LockOps(threads[i].actions), p) && Recorded(LockOps(threads[j].actions), q)
            && Reversed(p, q);
          assert Crossed(threads, i, j, p, q);
          return true;
        }
      }
    }
    return false;
  }

  // ---------- the pairs, read off the actions ----------

  /** The thread has `r` after these actions. */
  predicate HasAfter(actions: seq<ThreadAction>, r: Resource) {
    if actions == [] then false
    else
      var before, last := actions[..|actions| - 1], actions[|actions| - 1];
      last == AcquireResource(r) || (last != ReleaseResource(r) && HasAfter(before, r))
  }

  lemma {:induction false} HasAfterIsHeld(actions: seq<ThreadAction>, r: Resource)
    ensures HasAfter(actions, r) <==> Holds(HeldAfter(LockOps(actions)), r)
    decreases |actions|
  {
    if actions != [] {
      var n := |actions| - 1;
      HasAfterIsHeld(actions[..n], r);
      assert actions[..n + 1] == actions;
      LockOpsStep(actions, n);
      var ops := LockOps(actions[..n]);
      match actions[n]
      case AcquireResource(q) => HoldsStep(ops, Acquire(q, Exclusive), r);
      case ReleaseResource(q) => HoldsStep(ops, Release(q), r);
      case _ => assert ops + [] == ops;
    }
  }

  /** Some action takes the second resource of the pair while the thread has the first. */
  predicate TakenInside(actions: seq<ThreadAction>, p: Pair, i: int) {
    0 <= i < |actions| && actions[i] == AcquireResource(p.second) && HasAfter(actions[..i], p.first)
  }

  lemma RecordedOne(actions: seq<ThreadAction>, p: Pair)
    requires actions != []
    ensures var n := |actions| - 1;
            Recorded(LockOps(actions), p) <==> Recorded(LockOps(actions[..n]), p) || TakenInside(actions, p, n)
  {
    var n := |actions| - 1;
    assert actions[..n + 1] == actions;
    LockOpsStep(actions, n);
    HasAfterIsHeld(actions[..n], p.first);
    var ops := LockOps(actions[..n]);
    match actions[n]
    case AcquireResource(q) => RecordedStep(ops, Acquire(q, Exclusive), p);
    case ReleaseResource(q) => RecordedStep(ops, Release(q), p);
    case _ => assert ops + [] == ops;
  }

  /** What is recorded: exactly the pairs some action takes one inside the other. */
  lemma {:induction false} RecordedMeans(actions: seq<ThreadAction>, p: Pair)
    ensures Recorded(LockOps(actions), p) <==> exists i :: TakenInside(actions, p, i)
    decreases |actions|
  {
    if actions != [] {
      var n := |actions| - 1;
      RecordedOne(actions, p);
      RecordedMeans(actions[..n], p);
      forall i | 0 <= i < n
        ensures TakenInside(actions[..n], p, i) <==> TakenInside(actions, p, i)
      {
        assert actions[..n][..i] == actions[..i];
      }
      assert forall i :: TakenInside(actions[..n], p, i) ==> TakenInside(actions, p, i);
      assert forall i :: TakenInside(actions, p, i) ==> i == n || TakenInside(actions[..n], p, i);
    }
  }

  // ---------- agreement with the trace verifier ----------

  /** `events` is some interleaving of the threads, thread `i` recorded under id `i`. */
  ghost predicate Interleaves(events: seq<ProbeEvent>, threads: seq<ThreadSpec>) {
    forall t: ThreadId ::
      Projection(events, t) == if t < |threads| then LockOps(threads[t].actions) else []
  }

  /** Different threads contain opposite orders of two distinct resources. */
  ghost predicate CrossReversal(threads: seq<ThreadSpec>) {
    exists i, j, p: Pair, q :: 0 <= i < j < |threads| && p.first != p.second && Crossed(threads, i, j, p, q)
  }

  /** One thread contains both orders by itself. */
  ghost predicate SelfReversal(threads: seq<ThreadSpec>) {
    exists i, p: Pair, q :: p.first != p.second && Crossed(threads, i, i, p, q)
  }

  /** Two threads each take some resource they already hold. */
  ghost predicate SharedRetake(threads: seq<ThreadSpec>) {
    exists i, j, r ::
      && 0 <= i < j < |threads|
      && Retakes(LockOps(threads[i].actions), r) && Retakes(LockOps(threads[j].actions), r)
  }

  /** What the static check detects, on every spec. */
  lemma AbbaMeans(threads: seq<ThreadSpec>)
    ensures Abba(threads) <==> CrossReversal(threads) || SharedRetake(threads)
  {
    if Abba(threads) {
      var i, j, p, q :| 0 <= i < j < |threads| && Crossed(threads, i, j, p, q);
      if p.first == p.second {
        assert Retakes(LockOps(threads[i].actions), p.first) && Retakes(LockOps(threads[j].actions), p.first);
      }
    }
    if SharedRetake(threads) {
      var i, j, r :|
        && 0 <= i < j < |threads|
        && Retakes(LockOps(threads[i].actions), r) && Retakes(LockOps(threads[j].actions), r);
      assert Crossed(threads, i, j, Pair(r, r), Pair(r, r));
    }
  }

  lemma ReportNamesThreads(events: seq<ProbeEvent>, threads: seq<ThreadSpec>)
    requires Interleaves(events, threads) && HasCycle(TraceEdges(events))
    ensures CrossReversal(threads) || SelfReversal(threads)
  {
    var e, f :| e in TraceEdges(events) && f in TraceEdges(events) && Opposed(e, f);
    var i := EdgeHasThread(events, e);
    var j := EdgeHasThread(events, f);
    assert i < |threads| && j < |threads|;
    LockOpsAreExclusive(threads[i].actions);
    LockOpsAreExclusive(threads[j].actions);
    var p, q := Pair(e.held, e.acquired), Pair(f.held, f.acquired);
    assert Crossed(threads, i, j, p, q) && Crossed(threads, j, i, q, p);
  }

  lemma ReversalIsReported(events: seq<ProbeEvent>, threads: seq<ThreadSpec>, i: nat, j: nat, p: Pair, q: Pair)
    requires Interleaves(events, threads) && Crossed(threads, i, j, p, q) && p.first != p.second
    ensures HasCycle(TraceEdges(events))
  {
    var e, f := Edge(p.first, Exclusive, p.second, Exclusive), Edge(q.first, Exclusive, q.second, Exclusive);
    ThreadHasEdge(events, i, e);
    ThreadHasEdge(events, j, f);
    assert Opposed(e, f);
  }

  /** What the trace verifier reports on any interleaving of the spec. */
  lemma ReportMeans(events: seq<ProbeEvent>, threads: seq<ThreadSpec>)
    requires Interleaves(events, threads)
    ensures HasCycle(TraceEdges(events)) <==> CrossReversal(threads) || SelfReversal(threads)
  {
    if HasCycle(TraceEdges(events)) {
      ReportNamesThreads(events, threads);
    }
    if CrossReversal(threads) {
      var i, j, p: Pair, q :| 0 <= i < j < |threads| && p.first != p.second && Crossed(threads, i, j, p, q);
      ReversalIsReported(events, threads, i, j, p, q);
    }
    if SelfReversal(threads) {
      var i, p: Pair, q :| p.first != p.second && Crossed(threads, i, i, p, q);
      ReversalIsReported(events, threads, i, i, p, q);
    }
  }

  /** Static/dynamic agreement on every interleaving, each direction exactly. Detection implies
      a report iff two threads retaking the same resource comes with a real reversal, in
      particular whenever no resource is retaken; a report implies detection iff a thread at
      odds with itself comes with two threads at odds or retaking. */
  lemma StaticAgreesWithTrace(events: seq<ProbeEvent>, threads: seq<ThreadSpec>)
    requires Interleaves(events, threads)
    ensures (Abba(threads) ==> HasCycle(TraceEdges(events))) <==>
            (SharedRetake(threads) ==> CrossReversal(threads) || SelfReversal(threads))
    ensures (HasCycle(TraceEdges(events)) ==> Abba(threads)) <==>
            (SelfReversal(threads) ==> CrossReversal(threads) || SharedRetake(threads))
    ensures HasCycle(TraceEdges(events)) ==> Abba(threads) || SelfReversal(threads)
  {
    AbbaMeans(threads);
    ReportMeans(events, threads);
  }

  /** Takes `r` inside `p`, lets go of `p`, and takes it again inside `r`. */
  function BothOrders(p: Resource, r: Resource): ThreadSpec {
    ThreadSpec("", [AcquireResource(p), AcquireResource(r), ReleaseResource(p), AcquireResource(p)])
  }

  lemma {:induction false} EdgeWhileHolding(ops: seq<LockOp>, k: nat, p: Resource, r: Resource)
    requires k < |ops| && ops[k] == Acquire(r, Exclusive) && p != r
    requires Hold(p, Exclusive) in HeldAfter(ops[..k])
    ensures Edge(p, Exclusive, r, Exclusive) in OrderEdges(ops)
    decreases |ops|
  {
    var n := |ops| - 1;
    if k < n {
      assert ops[..n][..k] == ops[..k];
      EdgeWhileHolding(ops[..n], k, p, r);
    }
  }

  lemma AcquireSnoc(actions: seq<ThreadAction>, r: Resource)
    ensures LockOps(actions + [AcquireResource(r)]) == LockOps(actions) + [Acquire(r, Exclusive)]
  {
    assert (actions + [AcquireResource(r)])[..|actions|] == actions;
  }

  lemma ReleaseSnoc(actions: seq<ThreadAction>, r: Resource)
    ensures LockOps(actions + [ReleaseResource(r)]) == LockOps(actions) + [Release(r)]
  {
    assert (actions + [ReleaseResource(r)])[..|actions|] == actions;
  }

  lemma BothOrdersOps(p: Resource, r: Resource)
    ensures LockOps(BothOrders(p, r).actions) ==
            [Acquire(p, Exclusive), Acquire(r, Exclusive), Release(p), Acquire(p, Exclusive)]
  {
    var one := [] + [AcquireResource(p)];
    var two := one + [AcquireResource(r)];
    var three := two + [ReleaseResource(p)];
    AcquireSnoc([], p);
    AcquireSnoc(one, r);
    ReleaseSnoc(two, p);
    AcquireSnoc(three, p);
    assert BothOrders(p, r).actions == three + [AcquireResource(p)];
  }

  lemma BothOrdersHolds(ops: seq<LockOp>, p: Resource, r: Resource)
    requires p != r && ops == [Acquire(p, Exclusive), Acquire(r, Exclusive), Release(p), Acquire(p, Exclusive)]
    ensures Hold(p, Exclusive) in HeldAfter(ops[..1]) && Hold(r, Exclusive) in HeldAfter(ops[..3])
  {
    var hp, hr := Hold(p, Exclusive), Hold(r, Exclusive);
    assert ops[..1][..0] == [] && ops[..2][..1] == ops[..1] && ops[..3][..2] == ops[..2];
    assert HeldAfter(ops[..1]) == [hp] && HeldAfter(ops[..2]) == [hp, hr];
    assert hr in Without([hp, hr], p);
  }

  /** A lone thread that contains both orders is reported, and not detected. */
  lemma SelfReversalDisagrees(p: Resource, r: Resource, threads: seq<ThreadSpec>, events: seq<ProbeEvent>)
    requires p != r && threads == [BothOrders(p, r)] && Interleaves(events, threads)
    ensures HasCycle(TraceEdges(events)) && !Abba(threads)
  {
    var ops := LockOps(threads[0].actions);
    BothOrdersOps(p, r);
    BothOrdersHolds(ops, p, r);
    EdgeWhileHolding(ops, 1, p, r);
    EdgeWhileHolding(ops, 3, r, p);
    assert Crossed(threads, 0, 0, Pair(p, r), Pair(r, p));
    ReportMeans(events, threads);
  }

  function Twice(r: Resource): ThreadSpec {
    ThreadSpec("", [AcquireResource(r), AcquireResource(r)])
  }

  lemma TwiceOps(r: Resource)
    ensures LockOps(Twice(r).actions) == [Acquire(r, Exclusive), Acquire(r, Exclusive)]
  {
    var actions := Twice(r).actions;
    assert actions[..1] == [AcquireResource(r)] && [AcquireResource(r)][..0] == [];
    assert LockOps([AcquireResource(r)]) == [Acquire(r, Exclusive)];
  }

  lemma RetakenProgram(r: Resource)
    ensures var op := Acquire(r, Exclusive); Retakes([op, op], r) && OrderEdges([op, op]) == {}
  {
    var op := Acquire(r, Exclusive);
    assert [op][..0] == [] && [op, op][..1] == [op];
    assert HeldAfter([op]) == [Hold(r, Exclusive)];
    assert OrderEdges([op]) == {};
    assert HeldAfter([op])[0].resource == r;
    assert [op, op][1] == op && Holds(HeldAfter([op, op][..1]), r);
  }

  /** Two threads that each take the same resource twice are detected, and never reported. */
  lemma RetakeDisagrees(r: Resource, threads: seq<ThreadSpec>, events: seq<ProbeEvent>)
    requires threads == [Twice(r), Twice(r)] && Interleaves(events, threads)
    ensures Abba(threads) && !HasCycle(TraceEdges(events))
  {
    TwiceOps(r);
    RetakenProgram(r);
    assert Crossed(threads, 0, 1, Pair(r, r), Pair(r, r));
    forall i, j, p: Pair, q | p.first != p.second
      ensures !Crossed(threads, i, j, p, q)
    {
      assert 0 <= i < |threads| ==> threads[i] == Twice(r);
    }
    ReportMeans(events, threads);
  }
}
