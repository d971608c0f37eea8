/** The capacity-one lease pool: a mutex-protected slot and a one-permit notify,
    shared by any number of acquirers. */
module LeasePool {

  import opened Options
  import opened Words
  import Runs

  datatype WakePolicy = Normal | SuppressOneReleaseWake

  // ---------- the slot, and the two critical sections on it ----------

  datatype Slot = Slot(leased: bool, generation: nat, idleGeneration: Option<nat>, idleExpired: bool)

  const NEW_SLOT := Slot(true, 1, None, false)

  function AfterLease(slot: Slot): Slot {
    if slot.leased then slot
    else slot.(leased := true, generation := SaturatingAdd(slot.generation, 1))
  }

  predicate Releasable(slot: Slot, generation: nat) {
    slot.leased && slot.generation == generation
  }

  function AfterRelease(slot: Slot, generation: nat): Slot {
    if Releasable(slot, generation)
    then slot.(leased := false, idleGeneration := Some(generation), idleExpired := false)
    else slot
  }

  /** The fields behind the pool's mutex. Each method is one critical section. */
  class PoolState {
    var leased: bool
    var generation: nat
    var idleGeneration: Option<nat>
    var idleExpired: bool

    function View(): Slot
      reads this
    {
      Slot(leased, generation, idleGeneration, idleExpired)
    }

    constructor ()
      ensures View() == NEW_SLOT
    {
      leased, generation, idleGeneration, idleExpired := true, 1, None, false;
    }

    /** `acquire`: takes the slot if it is free and returns the new generation. */
    method TryLease() returns (granted: Option<nat>)
      modifies this
      ensures View() == AfterLease(old(View()))
      ensures granted == if old(leased) then None else Some(generation)
      ensures leased && idleGeneration == old(idleGeneration) && idleExpired == old(idleExpired)
      ensures generation == if old(leased) then old(generation) else SaturatingAdd(old(generation), 1)
    {
      if leased {
        return None;
      }
      leased := true;
      generation := SaturatingAdd(generation, 1);
      return Some(generation);
    }

    /** `release`: frees the slot unless the lease is stale. */
    method TryRelease(lease: nat) returns (shouldRelease: bool)
      modifies this
      ensures View() == AfterRelease(old(View()), lease)
      ensures shouldRelease == (old(leased) && old(generation) == lease)
      ensures generation == old(generation)
      ensures shouldRelease ==> !leased && idleGeneration == Some(lease) && !idleExpired
      ensures !shouldRelease ==>
                leased == old(leased) && idleGeneration == old(idleGeneration) && idleExpired == old(idleExpired)
    {
      if leased && generation == lease {
        leased := false;
        idleGeneration := Some(lease);
        idleExpired := false;
        return true;
      }
      return false;
    }

    /** The manager's idle timeout for `armed` elapsed. */
    method Expire(armed: nat)
      modifies this
      ensures View() == AfterExpiry(old(View()), armed)
      ensures leased == old(leased) && generation == old(generation) && idleGeneration == old(idleGeneration)
      ensures idleExpired == (old(idleExpired) || (!leased && idleGeneration == Some(armed)))
    {
      if !leased && idleGeneration == Some(armed) {
        idleExpired := true;
      }
    }
  }

  function AfterExpiry(slot: Slot, armed: nat): Slot {
    if !slot.leased && slot.idleGeneration == Some(armed) then slot.(idleExpired := true) else slot
  }

  // ---------- the protocol ----------

  /** Where one acquirer is. `Refused` has seen the slot taken and will next await the
      notify; `Freed` has given the slot back and will next notify. */
  datatype Pc = Checking | Refused | Parked | Holding(generation: nat) | Freed | Done

  /** `permit` and `queue` are the `waiter_wake` notify: at most one stored wake-up, and
      the parked acquirers in arrival order. `granted` is every generation handed out. */
  datatype State = State(policy: WakePolicy, slot: Slot, permit: bool, queue: seq<nat>,
                         tasks: seq<Pc>, granted: seq<nat>)

  /** The owner (task 0) starts with generation 1; acquirers arrive later. */
  function Start(policy: WakePolicy): State {
    State(policy, NEW_SLOT, false, [], [Holding(1)], [1])
  }

  datatype Action =
    | Arrive                    // a new acquire call
    | Move(task: nat)           // the task's next atomic step
    | IdleExpires(armed: nat)   // the manager's timeout branch

  function Notified(s: State): State {
    if s.queue != [] && s.queue[0] < |s.tasks|
    then s.(queue := s.queue[1..], tasks := s.tasks[s.queue[0] := Checking])
    else s.(permit := true)
  }

  function MoveTask(s: State, t: nat): Option<State>
    requires t < |s.tasks|
  {
    match s.tasks[t]
    case Checking =>
      if s.slot.leased then Some(s.(tasks := s.tasks[t := Refused]))
      else
        var slot := AfterLease(s.slot);
        Some(s.(slot := slot, tasks := s.tasks[t := Holding(slot.generation)],
                granted := s.granted + [slot.generation]))
    case Refused =>
      if s.permit then Some(s.(permit := false, tasks := s.tasks[t := Checking]))
      else Some(s.(queue := s.queue + [t], tasks := s.tasks[t := Parked]))
    case Parked => None
    case Holding(g) =>
      var slot := AfterRelease(s.slot, g);
      Some(s.(slot := slot, tasks := s.tasks[t := if Releasable(s.slot, g) then Freed else Done]))
    case Freed =>
      var s' := s.(tasks := s.tasks[t := Done]);
      Some(if s.policy == Normal then Notified(s') else s')
    case Done => None
  }

  function Step(s: State, a: Action): Option<State> {
    match a
    case Arrive => Some(s.(tasks := s.tasks + [Checking]))
    case Move(t) => if t < |s.tasks| then MoveTask(s, t) else None
    case IdleExpires(g) => Some(s.(slot := AfterExpiry(s.slot, g)))
  }

  function Reach(policy: WakePolicy, actions: seq<Action>): Option<State> {
    Runs.Execute(Step, Start(policy), actions)
  }

  // ---------- safety ----------

  predicate At(s: State, t: nat, pc: Pc) {
    t < |s.tasks| && s.tasks[t] == pc
  }

  /** The slot is leased exactly while one task holds its current generation. */
  ghost predicate OneLease(s: State) {
    && (forall t, u :: 0 <= t < |s.tasks| && 0 <= u < |s.tasks| && s.tasks[t].Holding? && s.tasks[u].Holding? ==>
          t == u)
    && (forall t :: 0 <= t < |s.tasks| && s.tasks[t].Holding? ==>
          s.slot.leased && s.tasks[t].generation == s.slot.generation)
    && (s.slot.leased ==> exists t :: 0 <= t < |s.tasks| && s.tasks[t].Holding?)
  }

  /** The i-th grant is generation i+1, until the counter saturates. */
  ghost predicate GrantsInOrder(s: State) {
    && |s.granted| > 0
    && s.slot.generation == s.granted[|s.granted| - 1]
    && forall i :: 0 <= i < |s.granted| ==> s.granted[i] == if i < U64_MAX then i + 1 else U64_MAX
  }

  /** The queue lists the parked tasks, once each, and a stored permit means nobody is queued. */
  ghost predicate QueueIsParked(s: State) {
    && (forall k :: 0 <= k < |s.queue| ==> At(s, s.queue[k], Parked))
    && (forall j, k :: 0 <= j < k < |s.queue| ==> s.queue[j] != s.queue[k])
    && (forall t :: 0 <= t < |s.tasks| && s.tasks[t] == Parked ==> t in s.queue)
    && (s.permit ==> s.queue == [])
  }

  /** A free slot always has a wake-up in flight. */
  ghost predicate WakeInFlight(s: State) {
    s.policy == Normal && !s.slot.leased ==>
      s.permit || exists t :: 0 <= t < |s.tasks| && (s.tasks[t] == Checking || s.tasks[t] == Freed)
  }

  ghost predicate Inv(s: State) {
    OneLease(s) && GrantsInOrder(s) && QueueIsParked(s) && WakeInFlight(s)
  }

  lemma StepKeepsInv(s: State, a: Action)
    requires Inv(s) && Step(s, a).Some?
    ensures Inv(Step(s, a).value)
  {
    LeaseStep(s, a);
    GrantStep(s, a);
    QueueStep(s, a);
    WakeStep(s, a);
  }

  lemma GrantStep(s: State, a: Action)
    requires GrantsInOrder(s) && Step(s, a).Some?
    ensures GrantsInOrder(Step(s, a).value)
  {
  }

  lemma NotifyKeepsQueue(s: State)
    requires QueueIsParked(s)
    ensures QueueIsParked(Notified(s))
  {
    var s' := Notified(s);
    if s.queue != [] {
      assert At(s, s.queue[0], Parked);
      forall t | 0 <= t < |s'.tasks| && s'.tasks[t] == Parked
        ensures t in s'.queue
      {
        var k :| 0 <= k < |s.queue| && s.queue[k] == t;
        assert s'.queue[k - 1] == t;
      }
      forall k | 0 <= k < |s'.queue|
        ensures At(s', s'.queue[k], Parked)
      {
        assert s'.queue[k] == s.queue[k + 1] && At(s, s.queue[k + 1], Parked);
      }
    }
  }

  /** Moving a task between two places other than `Parked` leaves the queue right. */
  lemma RelabelKeepsQueue(s: State, t: nat, pc: Pc)
    requires QueueIsParked(s) && t < |s.tasks| && s.tasks[t] != Parked && pc != Parked
    ensures QueueIsParked(s.(tasks := s.tasks[t := pc]))
  {
    var s' := s.(tasks := s.tasks[t := pc]);
    forall k | 0 <= k < |s.queue|
      ensures At(s', s.queue[k], Parked)
    {
      assert At(s, s.queue[k], Parked);
    }
  }

  lemma ParkKeepsQueue(s: State, t: nat)
    requires QueueIsParked(s) && t < |s.tasks| && s.tasks[t] != Parked && !s.permit
    ensures QueueIsParked(s.(queue := s.queue + [t], tasks := s.tasks[t := Parked]))
  {
    var s' := s.(queue := s.queue + [t], tasks := s.tasks[t := Parked]);
    assert s'.queue[|s.queue|] == t;
    forall k | 0 <= k < |s'.queue|
      ensures At(s', s'.queue[k], Parked) && (k < |s.queue| ==> s'.queue[k] != t)
    {
      if k < |s.queue| {
        assert s'.queue[k] == s.queue[k] && At(s, s.queue[k], Parked);
      }
    }
    forall u | 0 <= u < |s'.tasks| && s'.tasks[u] == Parked
      ensures u in s'.queue
    {
      if u != t {
        var k :| 0 <= k < |s.queue| && s.queue[k] == u;
        assert s'.queue[k] == u;
      }
    }
  }

  lemma QueueStep(s: State, a: Action)
    requires QueueIsParked(s) && Step(s, a).Some?
    ensures QueueIsParked(Step(s, a).value)
  {
    if a.Move? {
      var t := a.task;
      if s.tasks[t] == Refused && !s.permit {
        ParkKeepsQueue(s, t);
      } else {
        RelabelKeepsQueue(s, t, Step(s, a).value.tasks[t]);
        if s.tasks[t] == Freed {
          RelabelKeepsQueue(s, t, Done);
          NotifyKeepsQueue(s.(tasks := s.tasks[t := Done]));
        }
      }
    } else {
      forall k | 0 <= k < |s.queue|
        ensures At(Step(s, a).value, s.queue[k], Parked)
      {
        assert At(s, s.queue[k], Parked);
      }
    }
  }

  lemma LeaseStep(s: State, a: Action)
    requires Inv(s) && Step(s, a).Some?
    ensures OneLease(Step(s, a).value)
  {
    var s' := Step(s, a).value;
    if s'.slot.leased {
      if s.slot.leased {
        var h :| 0 <= h < |s.tasks| && s.tasks[h].Holding?;
        assert s'.tasks[h].Holding?;
      } else {
        assert s'.tasks[a.task].Holding?;
      }
    }
  }

  lemma WakeStep(s: State, a: Action)
    requires Inv(s) && Step(s, a).Some?
    ensures WakeInFlight(Step(s, a).value)
  {
    var s' := Step(s, a).value;
    if s.policy == Normal && !s'.slot.leased && !s'.permit {
      if s.slot.leased {
        assert s'.tasks[a.task] == Freed;
      } else if s.permit {
        assert s'.tasks[a.task] == Checking;
      } else {
        var w :| 0 <= w < |s.tasks| && (s.tasks[w] == Checking || s.tasks[w] == Freed);
        if a == Move(w) {
          assert s'.tasks[s.queue[0]] == Checking;
        } else {
          assert s'.tasks[w] == s.tasks[w];
        }
      }
    }
  }

  lemma Reachable(policy: WakePolicy, actions: seq<Action>)
    requires Reach(policy, actions).Some?
    ensures Inv(Reach(policy, actions).value)
    ensures Reach(policy, actions).value.policy == policy
  {
    var inv := (s: State) => Inv(s) && s.policy == policy;
    assert Inv(Start(policy)) by {
      assert Start(policy).tasks[0].Holding?;
    }
    forall s: State, a: Action | inv(s) && Step(s, a).Some?
      ensures inv(Step(s, a).value)
    {
      StepKeepsInv(s, a);
    }
    Runs.Preserved(Step, inv, Start(policy), actions);
  }

  /** At most one lease is live, and a live lease is never stale. */
  lemma AtMostOneLease(policy: WakePolicy, actions: seq<Action>, t: nat, u: nat)
    requires Reach(policy, actions).Some?
    requires var s := Reach(policy, actions).value;
             t < |s.tasks| && u < |s.tasks| && s.tasks[t].Holding? && s.tasks[u].Holding?
    ensures t == u
    ensures var s := Reach(policy, actions).value; Releasable(s.slot, s.tasks[t].generation)
  {
    Reachable(policy, actions);
  }

  /** No generation below saturation is granted twice; beyond it only the maximum repeats. */
  lemma GenerationsAreFresh(policy: WakePolicy, actions: seq<Action>, i: nat, j: nat)
    requires Reach(policy, actions).Some?
    requires i < j < |Reach(policy, actions).value.granted|
    ensures var granted := Reach(policy, actions).value.granted;
            granted[i] == granted[j] <==> granted[i] == U64_MAX
  {
    Reachable(policy, actions);
  }

  /** No lost wake-up: whenever the slot is free and someone is parked, some task is about
      to re-check the slot or about to notify. */
  lemma NoLostWakeup(actions: seq<Action>, t: nat)
    requires Reach(Normal, actions).Some?
    requires var s := Reach(Normal, actions).value; !s.slot.leased && At(s, t, Parked)
    ensures var s := Reach(Normal, actions).value; exists u :: At(s, u, Checking) || At(s, u, Freed)
  {
    Reachable(Normal, actions);
    var s := Reach(Normal, actions).value;
    var u :| 0 <= u < |s.tasks| && (s.tasks[u] == Checking || s.tasks[u] == Freed);
    assert At(s, u, Checking) || At(s, u, Freed);
  }

  // ---------- one grant each ----------

  /** A task that has or had the lease. */
  function HadLease(pc: Pc): nat {
    match pc
    case Holding(_) => 1
    case Freed => 1
    case Done => 1
    case _ => 0
  }

  function Leases(tasks: seq<Pc>): nat {
    if tasks == [] then 0 else Leases(tasks[..|tasks| - 1]) + HadLease(tasks[|tasks| - 1])
  }

  lemma {:induction false} LeasesUpdate(tasks: seq<Pc>, t: nat, pc: Pc)
    requires t < |tasks|
    ensures Leases(tasks[t := pc]) == Leases(tasks) - HadLease(tasks[t]) + HadLease(pc)
    decreases |tasks|
  {
    var n := |tasks| - 1;
    if t == n {
      assert tasks[t := pc][..n] == tasks[..n];
    } else {
      assert tasks[t := pc][..n] == tasks[..n][t := pc];
      LeasesUpdate(tasks[..n], t, pc);
    }
  }

  ghost predicate GrantsCounted(s: State) {
    QueueIsParked(s) && |s.granted| == Leases(s.tasks)
  }

  lemma GrantsCountedStep(s: State, a: Action)
    requires GrantsCounted(s) && Step(s, a).Some?
    ensures GrantsCounted(Step(s, a).value)
  {
    var s' := Step(s, a).value;
    QueueStep(s, a);
    match a
    case Arrive => assert s'.tasks[..|s.tasks|] == s.tasks;
    case IdleExpires(_) =>
    case Move(t) =>
      LeasesUpdate(s.tasks, t, if s.tasks[t] == Freed then Done else s'.tasks[t]);
      if s.tasks[t] == Freed && s.policy == Normal && s.queue != [] {
        assert At(s, s.queue[0], Parked);
        LeasesUpdate(s.tasks[t := Done], s.queue[0], Checking);
      }
  }

  /** In every run each task that has or had the lease was granted one generation of its own:
      there are as many grants as such tasks. */
  lemma OneGrantEach(policy: WakePolicy, actions: seq<Action>)
    requires Reach(policy, actions).Some?
    ensures |Reach(policy, actions).value.granted| == Leases(Reach(policy, actions).value.tasks)
  {
    forall s, a | GrantsCounted(s) && Step(s, a).Some?
      ensures GrantsCounted(Step(s, a).value)
    {
      GrantsCountedStep(s, a);
    }
    assert [Holding(1)][..0] == [];
    Runs.Preserved(Step, GrantsCounted, Start(policy), actions);
  }

  /** How an acquirer gets its lease, and how it gives it back, in every reachable state. */
  lemma LeaseAndRelease(policy: WakePolicy, actions: seq<Action>, t: nat)
    requires Reach(policy, actions).Some? && t < |Reach(policy, actions).value.tasks|
    ensures var s := Reach(policy, actions).value;
            var s' := Step(s, Move(t));
            && (s.tasks[t] == Checking && !s.slot.leased ==>
                  s'.Some? && s'.value.slot.leased && s'.value.tasks[t] == Holding(s'.value.slot.generation)
                  && s'.value.granted == s.granted + [s'.value.slot.generation])
            && (s.tasks[t] == Checking && s.slot.leased ==>
                  s'.Some? && s'.value.tasks[t] == Refused && s'.value.slot == s.slot)
            && (s.tasks[t].Holding? ==> s'.Some? && !s'.value.slot.leased && s'.value.tasks[t] == Freed)
            && (s.tasks[t] == Freed ==> s'.Some? && s'.value.tasks[t] == Done)
            && (s.tasks[t] == Freed && s.policy == Normal && s.queue != [] ==>
                  At(s'.value, s.queue[0], Checking) && s'.value.queue == s.queue[1..])
  {
    Reachable(policy, actions);
    var s := Reach(policy, actions).value;
    if s.tasks[t] == Freed && s.queue != [] {
      assert At(s, s.queue[0], Parked);
    }
  }

  // ---------- every acquirer is served ----------

  function Weight(pc: Pc): nat {
    match pc
    case Checking => 8
    case Refused => 7
    case Parked => 6
    case Holding(_) => 5
    case Freed => 4
    case Done => 0
  }

  function Total(tasks: seq<Pc>): nat {
    if tasks == [] then 0 else Weight(tasks[0]) + Total(tasks[1..])
  }

  lemma {:induction false} TotalUpdate(tasks: seq<Pc>, t: nat, pc: Pc)
    requires t < |tasks|
    ensures Total(tasks[t := pc]) == Total(tasks) - Weight(tasks[t]) + Weight(pc)
    decreases |tasks|
  {
    if t == 0 {
      assert tasks[0 := pc][1..] == tasks[1..];
    } else {
      assert tasks[t := pc][1..] == tasks[1..][t - 1 := pc];
      TotalUpdate(tasks[1..], t - 1, pc);
    }
  }

  /** Work left in a pool: what the tasks still have to do, plus a stored wake-up. */
  function Work(s: State): nat {
    Total(s.tasks) + if s.permit then 2 else 0
  }

  lemma MoveUsesWork(s: State, t: nat)
    requires QueueIsParked(s) && Step(s, Move(t)).Some?
    ensures Work(Step(s, Move(t)).value) < Work(s)
  {
    var s' := Step(s, Move(t)).value;
    if s.tasks[t] == Freed && s.policy == Normal {
      var done := s.tasks[t := Done];
      TotalUpdate(s.tasks, t, Done);
      if s.queue != [] {
        assert At(s, s.queue[0], Parked);
        TotalUpdate(done, s.queue[0], Checking);
      }
    } else {
      TotalUpdate(s.tasks, t, s'.tasks[t]);
    }
  }

  predicate OnlyMoves(actions: seq<Action>) {
    forall i :: 0 <= i < |actions| ==> actions[i].Move?
  }

  lemma {:induction false} MovesAreBounded(s: State, moves: seq<Action>)
    requires Inv(s) && OnlyMoves(moves) && Runs.Execute(Step, s, moves).Some?
    ensures |moves| <= Work(s)
    ensures Inv(Runs.Execute(Step, s, moves).value)
    ensures Runs.Execute(Step, s, moves).value.policy == s.policy
    decreases |moves|
  {
    if moves != [] {
      var s' := Step(s, moves[0]).value;
      MoveUsesWork(s, moves[0].task);
      StepKeepsInv(s, moves[0]);
      MovesAreBounded(s', moves[1..]);
    }
  }

  predicate Quiet(s: State) {
    forall t :: 0 <= t < |s.tasks| ==> Step(s, Move(t)).None?
  }

  lemma QuietMeansServed(s: State)
    requires Inv(s) && s.policy == Normal && Quiet(s)
    ensures forall t :: 0 <= t < |s.tasks| ==> s.tasks[t] == Done
  {
    forall t | 0 <= t < |s.tasks|
      ensures s.tasks[t] == Parked || s.tasks[t] == Done
    {
      assert Step(s, Move(t)).None?;
    }
  }

  lemma {:induction false} AllHadLease(tasks: seq<Pc>)
    requires forall t :: 0 <= t < |tasks| ==> tasks[t] == Done
    ensures Leases(tasks) == |tasks|
    decreases |tasks|
  {
    if tasks != [] {
      AllHadLease(tasks[..|tasks| - 1]);
    }
  }

  /** Every acquirer is served: once no more calls arrive, the tasks of a Normal pool can
      make only boundedly many moves, and when none is left each one has had its lease. */
  lemma EveryAcquirerIsServed(actions: seq<Action>, moves: seq<Action>)
    requires Reach(Normal, actions).Some? && OnlyMoves(moves)
    requires Runs.Execute(Step, Reach(Normal, actions).value, moves).Some?
    ensures var s := Reach(Normal, actions).value;
            var end := Runs.Execute(Step, s, moves).value;
            && |moves| <= Work(s)
            && (Quiet(end) ==>
                  |end.granted| == |end.tasks| && forall t :: 0 <= t < |end.tasks| ==> end.tasks[t] == Done)
  {
    Reachable(Normal, actions);
    var s := Reach(Normal, actions).value;
    MovesAreBounded(s, moves);
    var end := Runs.Execute(Step, s, moves).value;
    if Quiet(end) {
      QuietMeansServed(end);
      Runs.Concatenated(Step, Start(Normal), actions, moves);
      OneGrantEach(Normal, actions + moves);
      AllHadLease(end.tasks);
    }
  }

  // ---------- with the release wake suppressed ----------

  /** Nobody is ever notified. */
  ghost predicate Unnotified(s: State) {
    s.policy == SuppressOneReleaseWake && !s.permit
  }

  lemma UnnotifiedStep(s: State, a: Action)
    requires Unnotified(s) && Step(s, a).Some?
    ensures Unnotified(Step(s, a).value)
  {
  }

  lemma UnnotifiedReached(actions: seq<Action>)
    requires Reach(SuppressOneReleaseWake, actions).Some?
    ensures Unnotified(Reach(SuppressOneReleaseWake, actions).value)
  {
    forall s, a | Unnotified(s) && Step(s, a).Some?
      ensures Unnotified(Step(s, a).value)
    {
      UnnotifiedStep(s, a);
    }
    Runs.Preserved(Step, Unnotified, Start(SuppressOneReleaseWake), actions);
  }

  predicate Served(s: State, t: nat) {
    t < |s.tasks| && (s.tasks[t].Holding? || s.tasks[t] == Freed || s.tasks[t] == Done)
  }

  predicate TurnedAway(s: State, t: nat) {
    t < |s.tasks| && (s.tasks[t] == Refused || s.tasks[t] == Parked)
  }

  lemma {:induction false} FateIsSealed(s: State, t: nat, later: seq<Action>)
    requires Unnotified(s) && Runs.Execute(Step, s, later).Some?
    ensures Served(s, t) ==> Served(Runs.Execute(Step, s, later).value, t)
    ensures TurnedAway(s, t) ==> TurnedAway(Runs.Execute(Step, s, later).value, t)
    ensures At(s, t, Parked) ==> At(Runs.Execute(Step, s, later).value, t, Parked)
    decreases |later|
  {
    if later != [] {
      UnnotifiedStep(s, later[0]);
      FateIsSealed(Step(s, later[0]).value, t, later[1..]);
    }
  }

  /** A parked acquirer never leaves, whatever others do. */
  lemma SuppressedParkedForGood(before: seq<Action>, later: seq<Action>, t: nat)
    requires Reach(SuppressOneReleaseWake, before).Some? && Reach(SuppressOneReleaseWake, before + later).Some?
    requires At(Reach(SuppressOneReleaseWake, before).value, t, Parked)
    ensures At(Reach(SuppressOneReleaseWake, before + later).value, t, Parked)
  {
    UnnotifiedReached(before);
    Runs.Concatenated(Step, Start(SuppressOneReleaseWake), before, later);
    FateIsSealed(Reach(SuppressOneReleaseWake, before).value, t, later);
  }

  /** Exactly: in every run with the wake suppressed, an acquirer is served iff the slot was
      free when it checked; otherwise it is turned away for good. */
  lemma SuppressedServedIffFree(before: seq<Action>, later: seq<Action>, t: nat)
    requires Reach(SuppressOneReleaseWake, before).Some?
    requires At(Reach(SuppressOneReleaseWake, before).value, t, Checking)
    requires Reach(SuppressOneReleaseWake, before + ([Move(t)] + later)).Some?
    ensures var s := Reach(SuppressOneReleaseWake, before).value;
            var end := Reach(SuppressOneReleaseWake, before + ([Move(t)] + later)).value;
            && (Served(end, t) <==> !s.slot.leased)
            && (TurnedAway(end, t) <==> s.slot.leased)
  {
    UnnotifiedReached(before);
    var s := Reach(SuppressOneReleaseWake, before).value;
    Runs.Concatenated(Step, Start(SuppressOneReleaseWake), before, [Move(t)] + later);
    var s' := Step(s, Move(t)).value;
    assert ([Move(t)] + later)[1..] == later;
    UnnotifiedStep(s, Move(t));
    FateIsSealed(s', t, later);
  }

  /** So the fixture loses wake-ups: the slot is free, the acquirer is parked, nothing can move. */
  lemma SuppressedWakeIsLost()
    ensures var run := Reach(SuppressOneReleaseWake, [Arrive, Move(1), Move(1), Move(0), Move(0)]);
            run.Some? && !run.value.slot.leased && At(run.value, 1, Parked) && Quiet(run.value)
  {
    var slot, free := NEW_SLOT, AfterRelease(NEW_SLOT, 1);
    var s0 := Start(SuppressOneReleaseWake);
    var s1 := State(SuppressOneReleaseWake, slot, false, [], [Holding(1), Checking], [1]);
    var s2 := State(SuppressOneReleaseWake, slot, false, [], [Holding(1), Refused], [1]);
    var s3 := State(SuppressOneReleaseWake, slot, false, [1], [Holding(1), Parked], [1]);
    var s4 := State(SuppressOneReleaseWake, free, false, [1], [Freed, Parked], [1]);
    var s5 := State(SuppressOneReleaseWake, free, false, [1], [Done, Parked], [1]);
    assert s0.tasks + [Checking] == s1.tasks && Step(s0, Arrive) == Some(s1);
    assert s1.tasks[1 := Refused] == s2.tasks && Step(s1, Move(1)) == Some(s2);
    assert s2.tasks[1 := Parked] == s3.tasks && s2.queue + [1] == s3.queue && Step(s2, Move(1)) == Some(s3);
    assert s3.tasks[0 := Freed] == s4.tasks && Step(s3, Move(0)) == Some(s4);
    assert s4.tasks[0 := Done] == s5.tasks && Step(s4, Move(0)) == Some(s5);
    var a5, a4, a3 := [Move(0)], [Move(0), Move(0)], [Move(1), Move(0), Move(0)];
    var a2 := [Move(1), Move(1), Move(0), Move(0)];
    assert a4[1..] == a5 && a3[1..] == a4 && a2[1..] == a3;
    assert [Arrive, Move(1), Move(1), Move(0), Move(0)][1..] == a2;
    assert Runs.Execute(Step, s4, a5) == Some(s5);
    assert Runs.Execute(Step, s3, a4) == Some(s5);
    assert Runs.Execute(Step, s2, a3) == Some(s5);
    assert Runs.Execute(Step, s1, a2) == Some(s5);
  }
}
