/** The trace read directly, event by event: who reads and who writes each resource, and what a
    report of the lock-order scan says about that. */
module LockReplay {

  import opened Options
  import opened LockOrder

  predicate TakesToWrite(e: ProbeEvent, t: ThreadId, r: Resource) {
    e == LockAcquired(t, r) || e == RwLockWriteAcquired(t, r)
  }

  predicate TakesToRead(e: ProbeEvent, t: ThreadId, r: Resource) {
    e == RwLockReadAcquired(t, r)
  }

  predicate LetsGo(e: ProbeEvent, t: ThreadId, r: Resource) {
    e == LockReleased(t, r) || e == RwLockReadReleased(t, r) || e == RwLockWriteReleased(t, r)
  }

  /** Thread `t` has `r` to write: it took it so when it did not have it, and has not let go. */
  predicate Writes(events: seq<ProbeEvent>, t: ThreadId, r: Resource)
    decreases |events|
  {
    if events == [] then false
    else
      var before, e := events[..|events| - 1], events[|events| - 1];
      !LetsGo(e, t, r) && (Writes(before, t, r) || (TakesToWrite(e, t, r) && !Reads(before, t, r)))
  }

  /** And to read. A resource taken again keeps the mode it was first taken in. */
  predicate Reads(events: seq<ProbeEvent>, t: ThreadId, r: Resource)
    decreases |events|
  {
    if events == [] then false
    else
      var before, e := events[..|events| - 1], events[|events| - 1];
      !LetsGo(e, t, r) && (Reads(before, t, r) || (TakesToRead(e, t, r) && !Writes(before, t, r)))
  }

  predicate Has(events: seq<ProbeEvent>, t: ThreadId, r: Resource) {
    Reads(events, t, r) || Writes(events, t, r)
  }

  /** Event `i` takes `r` for `t`, which has `p`. */
  predicate TakesHaving(events: seq<ProbeEvent>, i: int, t: ThreadId, r: Resource, p: Resource) {
    && 0 <= i < |events| && p != r
    && (TakesToWrite(events[i], t, r) || TakesToRead(events[i], t, r)) && Has(events[..i], t, p)
  }

  /** Events `i` and `j` take `r` and `p` in opposite orders, and of each two accesses to one
      resource one writes. */
  predicate Opposite(events: seq<ProbeEvent>, i: int, t: ThreadId, p: Resource, j: int, u: ThreadId, r: Resource) {
    && TakesHaving(events, i, t, r, p) && TakesHaving(events, j, u, p, r)
    && (TakesToWrite(events[i], t, r) || Writes(events[..j], u, r))
    && (TakesToWrite(events[j], u, p) || Writes(events[..i], t, p))
  }

  // ---------- the scan's lists say the same ----------

  lemma HeldEntry(held: seq<Hold>, op: LockOp, h: Hold)
    ensures h in AfterOp(held, op) <==>
            if op.Acquire? then h in held || (h == Hold(op.resource, op.mode) && !Holds(held, op.resource))
            else h in held && h.resource != op.resource
  {
    if op.Acquire? && !Holds(held, op.resource) {
      assert AfterOp(held, op)[|held|] == Hold(op.resource, op.mode);
    }
  }

  lemma HoldsEither(held: seq<Hold>, r: Resource)
    ensures Holds(held, r) <==> Hold(r, Exclusive) in held || Hold(r, Shared) in held
  {
    if i :| 0 <= i < |held| && held[i].resource == r {
      assert held[i] in held && held[i] == Hold(r, held[i].mode);
      assert held[i].mode == Exclusive || held[i].mode == Shared;
    }
  }

  /** One event, as the scan's lists see it. */
  lemma HeldStep(events: seq<ProbeEvent>, t: ThreadId, r: Resource, m: HoldMode)
    requires events != []
    ensures var n := |events| - 1;
            var held, e := ThreadHolds(events[..n], t), events[n];
            Hold(r, m) in ThreadHolds(events, t) <==>
            && !LetsGo(e, t, r)
            && (Hold(r, m) in held ||
                ((if m == Exclusive then TakesToWrite(e, t, r) else TakesToRead(e, t, r)) && !Holds(held, r)))
  {
    var n := |events| - 1;
    var e := events[n];
    assert events[..n + 1] == events;
    HoldsStep(events, n, t);
    if OpOf(e).Some? && e.thread == t {
      HeldEntry(ThreadHolds(events[..n], t), OpOf(e).value, Hold(r, m));
    }
  }

  lemma {:induction false} ReplayIsHeld(events: seq<ProbeEvent>, t: ThreadId, r: Resource)
    ensures Writes(events, t, r) <==> Hold(r, Exclusive) in ThreadHolds(events, t)
    ensures Reads(events, t, r) <==> Hold(r, Shared) in ThreadHolds(events, t)
    decreases |events|
  {
    if events != [] {
      var before := events[..|events| - 1];
      ReplayIsHeld(before, t, r);
      HeldStep(events, t, r, Exclusive);
      HeldStep(events, t, r, Shared);
      HoldsEither(ThreadHolds(before, t), r);
    }
  }

  // ---------- what a report says ----------

  lemma TakesIsEdge(events: seq<ProbeEvent>, i: int, p: Resource, pm: HoldMode, r: Resource, rm: HoldMode)
    ensures TakesWhileHolding(events, i, Edge(p, pm, r, rm)) <==>
            && 0 <= i < |events| && p != r && OpOf(events[i]) == Some(Acquire(r, rm))
            && Hold(p, pm) in ThreadHolds(events[..i], events[i].thread)
  {
    if 0 <= i < |events| && OpOf(events[i]).Some? {
      var held := ThreadHolds(events[..i], events[i].thread);
      assert Hold(p, pm) in held && p != r ==>
          Edge(Hold(p, pm).resource, Hold(p, pm).mode, r, rm) == Edge(p, pm, r, rm);
    }
  }

  function ModeOf(e: ProbeEvent): HoldMode {
    if e.RwLockReadAcquired? then Shared else Exclusive
  }

  /** An acquisition with the mode it has, and the mode in which the other resource is held. */
  lemma TakesHavingIsEdge(events: seq<ProbeEvent>, i: int, t: ThreadId, r: Resource, p: Resource) returns (pm: HoldMode)
    requires TakesHaving(events, i, t, r, p)
    ensures TakesWhileHolding(events, i, Edge(p, pm, r, ModeOf(events[i])))
    ensures pm == Exclusive <==> Writes(events[..i], t, p)
  {
    ReplayIsHeld(events[..i], t, p);
    pm := if Writes(events[..i], t, p) then Exclusive else Shared;
    TakesIsEdge(events, i, p, pm, r, ModeOf(events[i]));
  }

  lemma EdgeIsTakesHaving(events: seq<ProbeEvent>, i: int, p: Resource, pm: HoldMode, r: Resource, rm: HoldMode)
    requires TakesWhileHolding(events, i, Edge(p, pm, r, rm))
    ensures 0 <= i < |events| && !events[i].Unrelated?
    ensures TakesHaving(events, i, events[i].thread, r, p)
    ensures rm == Exclusive <==> TakesToWrite(events[i], events[i].thread, r)
    ensures pm == Exclusive ==> Writes(events[..i], events[i].thread, p)
  {
    TakesIsEdge(events, i, p, pm, r, rm);
    ReplayIsHeld(events[..i], events[i].thread, p);
    assert pm == Exclusive || pm == Shared;
  }

  lemma OppositeIsReported(events: seq<ProbeEvent>, i: int, t: ThreadId, p: Resource, j: int, u: ThreadId, r: Resource)
    requires Opposite(events, i, t, p, j, u, r)
    ensures HasCycle(TraceEdges(events))
  {
    var pm := TakesHavingIsEdge(events, i, t, r, p);
    var rm := TakesHavingIsEdge(events, j, u, p, r);
    CycleIffTwoAcquisitions(events);
  }

  lemma ReportedIsOpposite(events: seq<ProbeEvent>, i: int, p: Resource, pm: HoldMode, wantR: HoldMode,
                           j: int, r: Resource, rm: HoldMode, wantP: HoldMode)
    requires p != r
    requires TakesWhileHolding(events, i, Edge(p, pm, r, wantR))
    requires TakesWhileHolding(events, j, Edge(r, rm, p, wantP))
    requires ModesConflict(wantR, rm) && ModesConflict(wantP, pm)
    ensures 0 <= i < |events| && 0 <= j < |events| && !events[i].Unrelated? && !events[j].Unrelated?
    ensures Opposite(events, i, events[i].thread, p, j, events[j].thread, r)
  {
    EdgeIsTakesHaving(events, i, p, pm, r, wantR);
    EdgeIsTakesHaving(events, j, r, rm, p, wantP);
    assert wantR == Exclusive || rm == Exclusive;
    assert wantP == Exclusive || pm == Exclusive;
  }

  lemma ReportHasOpposite(events: seq<ProbeEvent>)
    requires HasCycle(TraceEdges(events))
    ensures exists i, t, p, j, u, r :: Opposite(events, i, t, p, j, u, r)
  {
    var e, f :| e in TraceEdges(events) && f in TraceEdges(events) && Opposed(e, f);
    var i := EdgeHasEvent(events, e);
    var j := EdgeHasEvent(events, f);
    assert e == Edge(e.held, e.heldMode, e.acquired, e.acquiredMode);
    assert f == Edge(e.acquired, f.heldMode, e.held, f.acquiredMode);
    TakesIsEdge(events, i, e.held, e.heldMode, e.acquired, e.acquiredMode);
    ReportedIsOpposite(events, i, e.held, e.heldMode, e.acquiredMode, j, e.acquired, f.heldMode, f.acquiredMode);
  }

  /** The exact meaning of a report, read off the events: two of them take two resources in
      opposite orders, each having the one the other takes, and of the two accesses to each
      resource at least one writes. */
  lemma ReportedIffOpposite(events: seq<ProbeEvent>)
    ensures HasCycle(TraceEdges(events)) <==> exists i, t, p, j, u, r :: Opposite(events, i, t, p, j, u, r)
  {
    if HasCycle(TraceEdges(events)) {
      ReportHasOpposite(events);
    }
    if i, t, p, j, u, r :| Opposite(events, i, t, p, j, u, r) {
      OppositeIsReported(events, i, t, p, j, u, r);
    }
  }

}
