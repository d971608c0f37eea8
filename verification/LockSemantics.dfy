/** What a verdict says about schedules: the per-thread lock programs of a trace,
    run in every interleaving under reader/writer locks. */
module LockSemantics {

  import opened Options
  import opened LockOrder
  import Runs

  type Programs = map<ThreadId, seq<LockOp>>

  datatype Grant = Grant(thread: ThreadId, resource: Resource, mode: HoldMode)

  /** How far each thread got, and who holds what. */
  datatype State = State(pc: map<ThreadId, nat>, grants: set<Grant>)

  function Start(progs: Programs): State {
    State(map t | t in progs :: 0, {})
  }

  predicate Running(progs: Programs, s: State, t: ThreadId) {
    t in progs && t in s.pc && s.pc[t] < |progs[t]|
  }

  /** Another thread's grant keeps `t` from taking `r` in mode `m`. */
  ghost predicate BlockedBy(s: State, t: ThreadId, r: Resource, m: HoldMode, g: Grant) {
    g in s.grants && g.thread != t && g.resource == r && ModesConflict(m, g.mode)
  }

  predicate Available(s: State, t: ThreadId, r: Resource, m: HoldMode) {
    forall g :: g in s.grants && g.thread != t && g.resource == r ==> !ModesConflict(m, g.mode)
  }

  /** Thread `t` performs its next operation; taking a lock that is not available is not a step. */
  function Step(progs: Programs, s: State, t: ThreadId): Option<State> {
    if !Running(progs, s, t) then None
    else
      var advanced := s.pc[t := s.pc[t] + 1];
      match progs[t][s.pc[t]]
      case Acquire(r, m) =>
        if Available(s, t, r, m) then Some(State(advanced, s.grants + {Grant(t, r, m)})) else None
      case Release(r) =>
        Some(State(advanced, set g | g in s.grants && !(g.thread == t && g.resource == r)))
  }

  /** The state after the threads named by `schedule` have moved in that order. */
  function Reach(progs: Programs, schedule: seq<ThreadId>): Option<State> {
    Runs.Execute((s: State, t: ThreadId) => Step(progs, s, t), Start(progs), schedule)
  }

  ghost predicate Final(progs: Programs, s: State) {
    forall t :: t in progs ==> !Running(progs, s, t)
  }

  ghost predicate CanMove(progs: Programs, s: State) {
    exists t :: Step(progs, s, t).Some?
  }

  /** The program never takes exclusively what it already holds, and holds shared. */
  ghost predicate NoUpgrade(ops: seq<LockOp>) {
    forall k: nat :: k < |ops| ==> OpFits(ops, k)
  }

  ghost predicate OpFits(ops: seq<LockOp>, k: nat)
    requires k < |ops|
  {
    ops[k].Acquire? && ops[k].mode == Exclusive ==> Hold(ops[k].resource, Shared) !in HeldAfter(ops[..k])
  }

  /** It also ends holding nothing. */
  ghost predicate Disciplined(ops: seq<LockOp>) {
    NoUpgrade(ops) && HeldAfter(ops) == []
  }

  ghost predicate NoneUpgrades(progs: Programs) {
    forall t :: t in progs ==> NoUpgrade(progs[t])
  }

  ghost predicate AllDisciplined(progs: Programs) {
    forall t :: t in progs ==> Disciplined(progs[t])
  }

  // ---------- grants are exactly what the programs so far took ----------

  /** Everything taken and not released since, in every mode it was taken in. */
  function TakenAfter(ops: seq<LockOp>): set<Hold> {
    if ops == [] then {}
    else
      var before := TakenAfter(ops[..|ops| - 1]);
      match ops[|ops| - 1]
      case Acquire(r, m) => before + {Hold(r, m)}
      case Release(r) => set h | h in before && h.resource != r
  }

  ghost predicate GrantsMatch(s: State, t: ThreadId, taken: set<Hold>) {
    forall r: Resource, m :: Grant(t, r, m) in s.grants <==> Hold(r, m) in taken
  }

  function TakenBy(progs: Programs, s: State, t: ThreadId): set<Hold>
    requires t in progs && t in s.pc && s.pc[t] <= |progs[t]|
  {
    TakenAfter(progs[t][..s.pc[t]])
  }

  /** Threads share a resource only to read it. */
  ghost predicate Compatible(s: State) {
    forall g, h :: g in s.grants && h in s.grants && g.thread != h.thread && g.resource == h.resource ==>
      !ModesConflict(g.mode, h.mode)
  }

  ghost predicate Inv(progs: Programs, s: State) {
    && s.pc.Keys == progs.Keys && Compatible(s)
    && (forall g :: g in s.grants ==> g.thread in progs)
    && (forall t :: t in progs ==> s.pc[t] <= |progs[t]| && GrantsMatch(s, t, TakenBy(progs, s, t)))
  }

  lemma StepKeepsMatch(progs: Programs, s: State, t: ThreadId, u: ThreadId)
    requires Inv(progs, s) && Step(progs, s, t).Some? && u in progs
    ensures var s' := Step(progs, s, t).value;
            u in s'.pc && s'.pc[u] <= |progs[u]| && GrantsMatch(s', u, TakenBy(progs, s', u))
  {
    assert GrantsMatch(s, u, TakenBy(progs, s, u));
    if u == t {
      var ops, k := progs[t], s.pc[t];
      assert ops[..k + 1][..k] == ops[..k];
    }
  }

  lemma StepKeepsCompatible(progs: Programs, s: State, t: ThreadId)
    requires Compatible(s) && Step(progs, s, t).Some?
    ensures Compatible(Step(progs, s, t).value)
  {
  }

  lemma StepKeepsInv(progs: Programs, s: State, t: ThreadId)
    requires Inv(progs, s) && Step(progs, s, t).Some?
    ensures Inv(progs, Step(progs, s, t).value)
  {
    StepKeepsCompatible(progs, s, t);
    forall u | u in progs
      ensures var s' := Step(progs, s, t).value;
              u in s'.pc && s'.pc[u] <= |progs[u]| && GrantsMatch(s', u, TakenBy(progs, s', u))
    {
      StepKeepsMatch(progs, s, t, u);
    }
  }

  /** In every run of any programs, the locks are held as the programs took them, and only
      readers share. */
  lemma Reachable(progs: Programs, schedule: seq<ThreadId>)
    requires Reach(progs, schedule).Some?
    ensures Inv(progs, Reach(progs, schedule).value)
  {
    var step := (s: State, t: ThreadId) => Step(progs, s, t);
    var inv := (s: State) => Inv(progs, s);
    assert Runs.Inductive(step, inv) by {
      forall s, t | inv(s) && step(s, t).Some?
        ensures inv(step(s, t).value)
      {
        StepKeepsInv(progs, s, t);
      }
    }
    Runs.Preserved(step, inv, Start(progs), schedule);
  }

  // ---------- what the scan makes of it ----------

  lemma HeldSnoc(ops: seq<LockOp>, k: nat)
    requires k < |ops|
    ensures HeldAfter(ops[..k + 1]) == AfterOp(HeldAfter(ops[..k]), ops[k])
    ensures OrderEdges(ops[..k + 1]) == OrderEdges(ops[..k]) + EdgesInto(HeldAfter(ops[..k]), ops[k])
  {
    assert ops[..k + 1][..k] == ops[..k];
  }

  /** The scan's list has everything taken, by name, */
  lemma {:induction false} TakenIsListed(ops: seq<LockOp>)
    ensures forall r: Resource :: Holds(HeldAfter(ops), r) <==> exists m :: Hold(r, m) in TakenAfter(ops)
    ensures forall h :: h in HeldAfter(ops) ==> h in TakenAfter(ops)
    decreases |ops|
  {
    if ops != [] {
      var n := |ops| - 1;
      TakenIsListed(ops[..n]);
      forall r: Resource
        ensures Holds(HeldAfter(ops), r) <==> exists m :: Hold(r, m) in TakenAfter(ops)
      {
        ListedStep(ops, r);
      }
    }
  }

  lemma ListedStep(ops: seq<LockOp>, r: Resource)
    requires ops != []
    requires var before := ops[..|ops| - 1];
             Holds(HeldAfter(before), r) <==> exists m :: Hold(r, m) in TakenAfter(before)
    ensures Holds(HeldAfter(ops), r) <==> exists m :: Hold(r, m) in TakenAfter(ops)
  {
    var op, held := ops[|ops| - 1], HeldAfter(ops[..|ops| - 1]);
    HoldsAfterOp(held, op, r);
    if op.Acquire? && op.resource == r {
      assert Hold(r, op.mode) in TakenAfter(ops);
    }
    assert forall m :: op.resource != r ==>
        (Hold(r, m) in TakenAfter(ops) <==> Hold(r, m) in TakenAfter(ops[..|ops| - 1]));
  }

  lemma HoldsAfterOp(held: seq<Hold>, op: LockOp, r: Resource)
    ensures Holds(AfterOp(held, op), r) <==> if op.resource == r then op.Acquire? else Holds(held, r)
  {
    var after := AfterOp(held, op);
    if i :| 0 <= i < |held| && held[i].resource == r && (op.resource != r || op.Acquire?) {
      assert held[i] in after;
      var j :| 0 <= j < |after| && after[j] == held[i];
    } else if op.Acquire? && !Holds(held, op.resource) {
      assert after[|held|].resource == op.resource;
    }
    if i :| 0 <= i < |after| && after[i].resource == r {
      assert after[i] in held || after[i].resource == op.resource;
    }
  }

  /** and, without upgrades, in a mode at least as strong. */
  lemma {:induction false} TakenIsCovered(ops: seq<LockOp>, h: Hold)
    requires NoUpgrade(ops) && h in TakenAfter(ops)
    ensures h in HeldAfter(ops) || Hold(h.resource, Exclusive) in HeldAfter(ops)
    decreases |ops|
  {
    var n := |ops| - 1;
    var before, op := ops[..n], ops[n];
    assert NoUpgrade(before) by {
      forall k: nat | k < n
        ensures OpFits(before, k)
      {
        assert OpFits(ops, k) && before[..k] == ops[..k];
      }
    }
    if h in TakenAfter(before) {
      TakenIsCovered(before, h);
    } else {
      assert OpFits(ops, n);
      RetakenIsCovered(HeldAfter(before), op);
    }
  }

  lemma RetakenIsCovered(held: seq<Hold>, op: LockOp)
    requires op.Acquire? && (op.mode == Exclusive ==> Hold(op.resource, Shared) !in held)
    ensures Hold(op.resource, op.mode) in AfterOp(held, op) || Hold(op.resource, Exclusive) in AfterOp(held, op)
  {
    if i :| 0 <= i < |held| && held[i].resource == op.resource {
      assert held[i] in held && held[i] == Hold(op.resource, held[i].mode);
      assert Holds(held, op.resource) && AfterOp(held, op) == held;
      assert held[i].mode == Exclusive || held[i].mode == Shared;
      assert op.mode == Exclusive || op.mode == Shared;
    } else {
      assert AfterOp(held, op)[|held|] == Hold(op.resource, op.mode);
    }
  }

  /** The program never takes what it holds, in any mode. */
  ghost predicate NoRetake(ops: seq<LockOp>) {
    forall k: nat :: k < |ops| ==> TakesNew(ops, k)
  }

  ghost predicate TakesNew(ops: seq<LockOp>, k: nat)
    requires k < |ops|
  {
    ops[k].Acquire? ==> !Holds(HeldAfter(ops[..k]), ops[k].resource)
  }

  /** Without retakes the scan's list is exactly what was taken. */
  lemma {:induction false} TakenIsHeld(ops: seq<LockOp>)
    requires NoRetake(ops)
    ensures forall h :: h in TakenAfter(ops) <==> h in HeldAfter(ops)
    decreases |ops|
  {
    if ops != [] {
      var n := |ops| - 1;
      assert TakesNew(ops, n);
      assert NoRetake(ops[..n]) by {
        forall k: nat | k < n
          ensures TakesNew(ops[..n], k)
        {
          assert TakesNew(ops, k) && ops[..n][..k] == ops[..k];
        }
      }
      TakenIsHeld(ops[..n]);
    }
  }

  /** So in every run of programs that never take what they hold, the locks are held exactly as
      the scan's lists say. */
  lemma GrantsAreHeld(progs: Programs, schedule: seq<ThreadId>, t: ThreadId, r: Resource, m: HoldMode)
    requires Reach(progs, schedule).Some? && t in progs && NoRetake(progs[t])
    ensures var s := Reach(progs, schedule).value;
            && t in s.pc && s.pc[t] <= |progs[t]|
            && (Grant(t, r, m) in s.grants <==> Hold(r, m) in HeldAfter(progs[t][..s.pc[t]]))
  {
    Reachable(progs, schedule);
    var s := Reach(progs, schedule).value;
    var ops := progs[t];
    assert GrantsMatch(s, t, TakenBy(progs, s, t));
    forall k: nat | k < s.pc[t]
      ensures TakesNew(ops[..s.pc[t]], k)
    {
      assert TakesNew(ops, k) && ops[..s.pc[t]][..k] == ops[..k];
    }
    TakenIsHeld(ops[..s.pc[t]]);
  }

  // ---------- soundness of a clean verdict ----------

  /** Thread `t` is about to take `r` in mode `m`. */
  ghost predicate About(progs: Programs, s: State, t: ThreadId, r: Resource, m: HoldMode) {
    Running(progs, s, t) && progs[t][s.pc[t]] == Acquire(r, m)
  }

  /** `t` and `u` each hold, in a conflicting mode, what the other is about to take. */
  ghost predicate MutualWait(progs: Programs, s: State, t: ThreadId, u: ThreadId) {
    t != u && exists r: Resource, m, g, p: Resource, n, h ::
      && About(progs, s, t, r, m) && BlockedBy(s, t, r, m, g) && g.thread == u
      && About(progs, s, u, p, n) && BlockedBy(s, u, p, n, h) && h.thread == t
  }

  /** The edges of all the programs together. */
  function ProgramEdges(progs: Programs): set<Edge> {
    set t, e | t in progs && e in OrderEdges(progs[t]) :: e
  }

  ghost predicate ProgramsClean(progs: Programs) {
    !HasCycle(ProgramEdges(progs))
  }

  lemma {:induction false} EdgesOfProgramPrefix(ops: seq<LockOp>, n: nat)
    requires n <= |ops|
    ensures OrderEdges(ops[..n]) <= OrderEdges(ops)
    decreases |ops|
  {
    if n == |ops| {
      assert ops[..n] == ops;
    } else {
      assert ops[..|ops| - 1][..n] == ops[..n];
      EdgesOfProgramPrefix(ops[..|ops| - 1], n);
    }
  }

  /** A thread about to take `r` that holds `h`, of another resource, has an edge from it in its
      program, in a mode at least as strong. */
  lemma PendingEdge(progs: Programs, s: State, t: ThreadId, r: Resource, m: HoldMode, h: Grant) returns (e: Edge)
    requires NoneUpgrades(progs) && Inv(progs, s) && About(progs, s, t, r, m)
    requires h in s.grants && h.thread == t && h.resource != r
    ensures e in OrderEdges(progs[t])
    ensures e == Edge(h.resource, h.mode, r, m) || e == Edge(h.resource, Exclusive, r, m)
  {
    var ops, k := progs[t], s.pc[t];
    var held := HeldAfter(ops[..k]);
    assert GrantsMatch(s, t, TakenBy(progs, s, t)) && h == Grant(t, h.resource, h.mode);
    PrefixUpgrades(ops, k);
    TakenIsCovered(ops[..k], Hold(h.resource, h.mode));
    var mode := if Hold(h.resource, h.mode) in held then h.mode else Exclusive;
    assert Hold(h.resource, mode) in held;
    e := Edge(h.resource, mode, r, m);
    HeldSnoc(ops, k);
    assert e in OrderEdges(ops[..k + 1]);
    EdgesOfProgramPrefix(ops, k + 1);
  }

  lemma PrefixUpgrades(ops: seq<LockOp>, n: nat)
    requires n <= |ops| && NoUpgrade(ops)
    ensures NoUpgrade(ops[..n])
  {
    forall k: nat | k < n
      ensures OpFits(ops[..n], k)
    {
      assert OpFits(ops, k) && ops[..n][..k] == ops[..k];
    }
  }

  /** Without upgrades a thread is never blocked on a resource it holds itself. */
  lemma BlockedElsewhere(progs: Programs, s: State, t: ThreadId, r: Resource, m: HoldMode, g: Grant, h: Grant)
    requires NoneUpgrades(progs) && Inv(progs, s) && About(progs, s, t, r, m) && BlockedBy(s, t, r, m, g)
    requires h in s.grants && h.thread == t
    ensures h.resource != r
  {
    if h.resource == r {
      var ops, k := progs[t], s.pc[t];
      assert h == Grant(t, r, Shared) && g == Grant(g.thread, r, Shared) && m == Exclusive;
      assert GrantsMatch(s, t, TakenBy(progs, s, t));
      PrefixUpgrades(ops, k);
      TakenIsCovered(ops[..k], Hold(r, Shared));
      assert OpFits(ops, k);
      HeldIsGranted(progs, s, t, Hold(r, Exclusive));
    }
  }

  lemma HeldIsGranted(progs: Programs, s: State, t: ThreadId, h: Hold)
    requires Inv(progs, s) && t in progs && h in HeldAfter(progs[t][..s.pc[t]])
    ensures Grant(t, h.resource, h.mode) in s.grants
  {
    TakenIsListed(progs[t][..s.pc[t]]);
    assert GrantsMatch(s, t, TakenBy(progs, s, t)) && h == Hold(h.resource, h.mode);
  }

  /** A mutual wait shows in the programs as an opposed pair of edges. */
  lemma MutualWaitIsOpposed(progs: Programs, s: State, t: ThreadId, r: Resource, m: HoldMode, g: Grant,
                            u: ThreadId, p: Resource, n: HoldMode, h: Grant)
    requires NoneUpgrades(progs) && Inv(progs, s)
    requires About(progs, s, t, r, m) && BlockedBy(s, t, r, m, g) && g.thread == u
    requires About(progs, s, u, p, n) && BlockedBy(s, u, p, n, h) && h.thread == t
    ensures !ProgramsClean(progs)
  {
    BlockedElsewhere(progs, s, t, r, m, g, h);
    var e := PendingEdge(progs, s, t, r, m, h);
    var f := PendingEdge(progs, s, u, p, n, g);
    assert e in ProgramEdges(progs) && f in ProgramEdges(progs) && Opposed(e, f);
  }

  /** Pairwise soundness, any number of threads: no run of clean programs reaches a mutual wait. */
  lemma NoMutualWait(progs: Programs, schedule: seq<ThreadId>, t: ThreadId, u: ThreadId)
    requires NoneUpgrades(progs) && ProgramsClean(progs) && Reach(progs, schedule).Some?
    ensures !MutualWait(progs, Reach(progs, schedule).value, t, u)
  {
    var s := Reach(progs, schedule).value;
    Reachable(progs, schedule);
    forall r: Resource, m, g, p: Resource, n, h |
      && About(progs, s, t, r, m) && BlockedBy(s, t, r, m, g) && g.thread == u
      && About(progs, s, u, p, n) && BlockedBy(s, u, p, n, h) && h.thread == t
      ensures false
    {
      MutualWaitIsOpposed(progs, s, t, r, m, g, u, p, n, h);
    }
  }

  /** A thread that holds something has not finished. */
  lemma HolderIsRunning(progs: Programs, s: State, g: Grant)
    requires AllDisciplined(progs) && Inv(progs, s) && g in s.grants
    ensures Running(progs, s, g.thread)
  {
    var t := g.thread;
    var ops := progs[t];
    assert GrantsMatch(s, t, TakenBy(progs, s, t)) && g == Grant(t, g.resource, g.mode);
    TakenIsListed(ops[..s.pc[t]]);
    assert Hold(g.resource, g.mode) in TakenAfter(ops[..s.pc[t]]);
    assert Holds(HeldAfter(ops[..s.pc[t]]), g.resource);
    assert ops[..|ops|] == ops;
  }

  /** A running thread that cannot move is about to take a lock some other thread holds. */
  lemma BlockedThread(progs: Programs, s: State, t: ThreadId) returns (r: Resource, m: HoldMode, g: Grant)
    requires Running(progs, s, t) && Step(progs, s, t).None?
    ensures About(progs, s, t, r, m) && BlockedBy(s, t, r, m, g)
  {
    var op := progs[t][s.pc[t]];
    r, m := op.resource, op.mode;
    assert !Available(s, t, r, m);
    g :| g in s.grants && g.thread != t && g.resource == r && ModesConflict(m, g.mode);
  }

  lemma StuckTwoThreads(progs: Programs, s: State, t: ThreadId, a: ThreadId, b: ThreadId)
    requires AllDisciplined(progs) && ProgramsClean(progs) && Inv(progs, s)
    requires (forall u :: u in progs ==> u == a || u == b) && Running(progs, s, t)
    ensures CanMove(progs, s)
  {
    if Step(progs, s, t).None? {
      var r, m, g := BlockedThread(progs, s, t);
      var u := g.thread;
      HolderIsRunning(progs, s, g);
      if Step(progs, s, u).None? {
        var p, n, h := BlockedThread(progs, s, u);
        HolderIsRunning(progs, s, h);
        MutualWaitIsOpposed(progs, s, t, r, m, g, u, p, n, h);
      }
    }
  }

  /** Deadlock freedom: two clean programs always have a step until both are done. */
  lemma TwoThreadsNeverStuck(progs: Programs, schedule: seq<ThreadId>, a: ThreadId, b: ThreadId)
    requires AllDisciplined(progs) && ProgramsClean(progs) && Reach(progs, schedule).Some?
    requires forall t :: t in progs ==> t == a || t == b
    ensures var s := Reach(progs, schedule).value; Final(progs, s) || CanMove(progs, s)
  {
    var s := Reach(progs, schedule).value;
    Reachable(progs, schedule);
    if t :| Running(progs, s, t) {
      StuckTwoThreads(progs, s, t, a, b);
    }
  }

  // ---------- what a deadlock of clean programs looks like ----------

  /** `t` is about to take something that `u` holds in a conflicting mode. */
  ghost predicate WaitsFor(progs: Programs, s: State, t: ThreadId, u: ThreadId) {
    exists r: Resource, m, g :: About(progs, s, t, r, m) && BlockedBy(s, t, r, m, g) && g.thread == u
  }

  lemma NoWaitBack(progs: Programs, s: State, t: ThreadId, u: ThreadId)
    requires NoneUpgrades(progs) && ProgramsClean(progs) && Inv(progs, s)
    requires WaitsFor(progs, s, t, u)
    ensures t != u && !WaitsFor(progs, s, u, t)
  {
    var r: Resource, m, g :| About(progs, s, t, r, m) && BlockedBy(s, t, r, m, g) && g.thread == u;
    if p: Resource, n, h :| About(progs, s, u, p, n) && BlockedBy(s, u, p, n, h) && h.thread == t {
      MutualWaitIsOpposed(progs, s, t, r, m, g, u, p, n, h);
    }
  }

  lemma StuckWaits(progs: Programs, s: State, t: ThreadId) returns (u: ThreadId)
    requires AllDisciplined(progs) && Inv(progs, s) && !CanMove(progs, s) && Running(progs, s, t)
    ensures WaitsFor(progs, s, t, u) && Running(progs, s, u)
  {
    assert Step(progs, s, t).None?;
    var _, _, g := BlockedThread(progs, s, t);
    u := g.thread;
    HolderIsRunning(progs, s, g);
  }

  ghost predicate Distinct(threads: seq<ThreadId>) {
    forall i, j :: 0 <= i < j < |threads| ==> threads[i] != threads[j]
  }

  ghost predicate Link(progs: Programs, s: State, chain: seq<ThreadId>, i: int)
    requires 0 < i < |chain|
  {
    WaitsFor(progs, s, chain[i - 1], chain[i])
  }

  /** Each thread waits for the one after it. */
  ghost predicate WaitChain(progs: Programs, s: State, chain: seq<ThreadId>) {
    Distinct(chain) && forall i :: 0 < i < |chain| ==> Link(progs, s, chain, i)
  }

  /** And the last for the first. */
  ghost predicate WaitRing(progs: Programs, s: State, ring: seq<ThreadId>) {
    ring != [] && WaitChain(progs, s, ring) && WaitsFor(progs, s, ring[|ring| - 1], ring[0])
  }

  lemma LongerChain(progs: Programs, s: State, chain: seq<ThreadId>, u: ThreadId)
    requires chain != [] && WaitChain(progs, s, chain)
    requires WaitsFor(progs, s, chain[|chain| - 1], u) && u !in chain
    ensures WaitChain(progs, s, chain + [u])
  {
    forall i | 0 < i < |chain + [u]|
      ensures Link(progs, s, chain + [u], i)
    {
      assert i < |chain| ==> Link(progs, s, chain, i);
    }
  }

  lemma ChainSuffix(progs: Programs, s: State, chain: seq<ThreadId>, k: nat)
    requires k < |chain| && WaitChain(progs, s, chain)
    ensures WaitChain(progs, s, chain[k..])
  {
    forall i | 0 < i < |chain[k..]|
      ensures Link(progs, s, chain[k..], i)
    {
      assert Link(progs, s, chain, k + i);
    }
  }

  /** A chain of waiting threads can be followed until it closes; `rest` are the threads not on it. */
  lemma {:induction false} FollowWaits(progs: Programs, s: State, chain: seq<ThreadId>, rest: set<ThreadId>)
    returns (ring: seq<ThreadId>)
    requires AllDisciplined(progs) && Inv(progs, s) && !CanMove(progs, s)
    requires chain != [] && WaitChain(progs, s, chain) && Running(progs, s, chain[|chain| - 1])
    requires forall t :: t in progs ==> t in chain || t in rest
    ensures WaitRing(progs, s, ring)
    decreases rest
  {
    var u := StuckWaits(progs, s, chain[|chain| - 1]);
    if u in chain {
      var k :| 0 <= k < |chain| && chain[k] == u;
      ring := chain[k..];
      ChainSuffix(progs, s, chain, k);
    } else {
      LongerChain(progs, s, chain, u);
      ring := FollowWaits(progs, s, chain + [u], rest - {u});
    }
  }

  lemma RingIsLong(progs: Programs, s: State, ring: seq<ThreadId>)
    requires NoneUpgrades(progs) && ProgramsClean(progs) && Inv(progs, s) && WaitRing(progs, s, ring)
    ensures |ring| >= 3
  {
    var last := ring[|ring| - 1];
    NoWaitBack(progs, s, last, ring[0]);
    assert |ring| == 2 ==> Link(progs, s, ring, 1);
  }

  /** A deadlock of clean programs is a ring of at least three distinct threads, each waiting
      for the next. */
  lemma DeadlockIsLongRing(progs: Programs, schedule: seq<ThreadId>) returns (ring: seq<ThreadId>)
    requires AllDisciplined(progs) && ProgramsClean(progs) && Reach(progs, schedule).Some?
    requires var s := Reach(progs, schedule).value; !Final(progs, s) && !CanMove(progs, s)
    ensures WaitRing(progs, Reach(progs, schedule).value, ring) && |ring| >= 3
  {
    var s := Reach(progs, schedule).value;
    Reachable(progs, schedule);
    var t :| Running(progs, s, t);
    ring := FollowWaits(progs, s, [t], progs.Keys);
    RingIsLong(progs, s, ring);
  }

  function Left(progs: Programs, s: State, t: ThreadId): int {
    if t in progs && t in s.pc then |progs[t]| - s.pc[t] else 0
  }

  lemma StepShortens(progs: Programs, s: State, u: ThreadId, t: ThreadId)
    requires Step(progs, s, u).Some?
    ensures Left(progs, s, u) > 0
    ensures Left(progs, Step(progs, s, u).value, t) == Left(progs, s, t) - (if t == u then 1 else 0)
  {
  }

  lemma SomeoneMoves(progs: Programs, s: State, a: ThreadId, b: ThreadId) returns (u: ThreadId)
    requires AllDisciplined(progs) && ProgramsClean(progs) && Inv(progs, s) && !Final(progs, s)
    requires forall t :: t in progs ==> t == a || t == b
    ensures Step(progs, s, u).Some? && (u == a || u == b)
  {
    var t :| Running(progs, s, t);
    StuckTwoThreads(progs, s, t, a, b);
    u :| Step(progs, s, u).Some?;
  }

  /** From any reachable state of two clean programs, both can be run to their end. */
  lemma {:induction false} TwoThreadsFinish(progs: Programs, s: State, a: ThreadId, b: ThreadId)
    returns (rest: seq<ThreadId>)
    requires AllDisciplined(progs) && ProgramsClean(progs) && Inv(progs, s)
    requires forall t :: t in progs ==> t == a || t == b
    ensures var end := Runs.Execute((s: State, t: ThreadId) => Step(progs, s, t), s, rest);
            end.Some? && Final(progs, end.value)
    decreases Left(progs, s, a) + Left(progs, s, b)
  {
    if Final(progs, s) {
      rest := [];
    } else {
      var u := SomeoneMoves(progs, s, a, b);
      StepKeepsInv(progs, s, u);
      StepShortens(progs, s, u, a);
      StepShortens(progs, s, u, b);
      var more := TwoThreadsFinish(progs, Step(progs, s, u).value, a, b);
      rest := [u] + more;
      assert rest[1..] == more;
    }
  }

  lemma {:induction false} RankedChain(progs: Programs, s: State, rank: Resource -> int, t: ThreadId,
                                       r: Resource, m: HoldMode)
    requires AllDisciplined(progs) && Inv(progs, s) && Ranked(progs, rank)
    requires About(progs, s, t, r, m)
    ensures CanMove(progs, s)
    decreases set g | g in s.grants && rank(g.resource) >= rank(r)
  {
    if Step(progs, s, t).None? {
      var _, _, g := BlockedThread(progs, s, t);
      var u := g.thread;
      HolderIsRunning(progs, s, g);
      if Step(progs, s, u).None? {
        var p, n, h := BlockedThread(progs, s, u);
        BlockedElsewhere(progs, s, u, p, n, h, g);
        var e := PendingEdge(progs, s, u, p, n, g);
        assert rank(r) < rank(p);
        var above := set h | h in s.grants && rank(h.resource) >= rank(r);
        var higher := set h | h in s.grants && rank(h.resource) >= rank(p);
        assert g in above && g !in higher && higher <= above;
        RankedChain(progs, s, rank, u, p, n);
      }
    }
  }

  /** Every thread takes resources in increasing rank. */
  ghost predicate Ranked(progs: Programs, rank: Resource -> int) {
    forall t, e :: t in progs && e in OrderEdges(progs[t]) ==> rank(e.held) < rank(e.acquired)
  }

  /** Programs that respect a resource rank never get stuck, however many threads run. */
  lemma RankedNeverStuck(progs: Programs, schedule: seq<ThreadId>, rank: Resource -> int)
    requires AllDisciplined(progs) && Ranked(progs, rank) && Reach(progs, schedule).Some?
    ensures var s := Reach(progs, schedule).value; Final(progs, s) || CanMove(progs, s)
  {
    var s := Reach(progs, schedule).value;
    Reachable(progs, schedule);
    if t :| Running(progs, s, t) {
      if Step(progs, s, t).None? {
        var r, m, _ := BlockedThread(progs, s, t);
        RankedChain(progs, s, rank, t, r, m);
      }
    }
  }

  // ---------- the same, said of a captured trace ----------

  function Threads(events: seq<ProbeEvent>): set<ThreadId> {
    set i | 0 <= i < |events| && OpOf(events[i]).Some? :: events[i].thread
  }

  /** The lock programs a trace records. */
  function ProgramsOf(events: seq<ProbeEvent>): Programs {
    map t | t in Threads(events) :: Projection(events, t)
  }

  lemma {:induction false} SilentThread(events: seq<ProbeEvent>, t: ThreadId)
    requires t !in Threads(events)
    ensures Projection(events, t) == []
    decreases |events|
  {
    if events != [] {
      var n := |events| - 1;
      forall u | u in Threads(events[..n])
        ensures u in Threads(events)
      {
        var i :| 0 <= i < n && OpOf(events[..n][i]).Some? && events[..n][i].thread == u;
        assert events[i] == events[..n][i];
      }
      SilentThread(events[..n], t);
    }
  }

  /** The verifier's verdict is a fact about the recorded programs. */
  lemma VerdictIsAboutPrograms(events: seq<ProbeEvent>)
    ensures TraceEdges(events) == ProgramEdges(ProgramsOf(events))
  {
    var progs := ProgramsOf(events);
    forall e | e in TraceEdges(events)
      ensures e in ProgramEdges(progs)
    {
      var t := EdgeHasThread(events, e);
      if t !in progs {
        SilentThread(events, t);
      }
      assert e in OrderEdges(progs[t]);
    }
    forall t, e | t in progs && e in OrderEdges(progs[t])
      ensures e in TraceEdges(events)
    {
      ThreadHasEdge(events, t, e);
    }
  }

  /** Deadlock freedom of a clean two-thread trace: in every interleaving of its two
      programs, every state short of the end has an enabled step. */
  lemma CleanTwoThreadTraceNeverStuck(events: seq<ProbeEvent>, a: ThreadId, b: ThreadId, schedule: seq<ThreadId>)
    requires !HasCycle(TraceEdges(events))
    requires Threads(events) <= {a, b}
    requires AllDisciplined(ProgramsOf(events)) && Reach(ProgramsOf(events), schedule).Some?
    ensures var s := Reach(ProgramsOf(events), schedule).value;
            Final(ProgramsOf(events), s) || CanMove(ProgramsOf(events), s)
  {
    VerdictIsAboutPrograms(events);
    TwoThreadsNeverStuck(ProgramsOf(events), schedule, a, b);
  }

  /** Pairwise soundness of a clean trace over any number of threads. */
  lemma CleanTraceNoMutualWait(events: seq<ProbeEvent>, schedule: seq<ThreadId>, t: ThreadId, u: ThreadId)
    requires !HasCycle(TraceEdges(events))
    requires NoneUpgrades(ProgramsOf(events)) && Reach(ProgramsOf(events), schedule).Some?
    ensures !MutualWait(ProgramsOf(events), Reach(ProgramsOf(events), schedule).value, t, u)
  {
    VerdictIsAboutPrograms(events);
    NoMutualWait(ProgramsOf(events), schedule, t, u);
  }

}
