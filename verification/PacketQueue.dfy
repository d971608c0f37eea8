/** The packet queue: producers push under a lock and then publish on a watch channel,
    which keeps only its latest value; one consumer drains. */
module PacketQueue {

  import opened Options
  import Runs

  datatype WakePolicy = Normal | SuppressOnePushWake

  /** One `enqueue` call: push, count the notification, send it. */
  datatype Producer = Pushing(packet: nat) | Counting | Sending | Finished

  /** `drain`: wait for a change, look at the value, then act on it under the lock. */
  datatype Consumer = Waiting | Changed | Looked(shutdown: bool) | Returned

  /** The watch channel: `version` counts sends and `value` is the latest one. `pushed` is
      every packet in push order and `batches` what the consumer took. */
  datatype State = State(policy: WakePolicy, packets: seq<nat>, notificationsSent: nat,
                         version: nat, value: bool, seen: nat,
                         producers: seq<Producer>, consumer: Consumer,
                         shutdownSent: bool, pushed: seq<nat>, batches: seq<seq<nat>>)

  function Start(policy: WakePolicy): State {
    State(policy, [], 0, 0, true, 0, [], Waiting, false, [], [])
  }

  /** `Shutdown` comes once, after every enqueue call is done. */
  datatype Action = Enqueue(packet: nat) | Produce(p: nat) | Shutdown | Consume

  predicate AllFinished(producers: seq<Producer>) {
    forall i :: 0 <= i < |producers| ==> producers[i] == Finished
  }

  function ProduceStep(s: State, p: nat): Option<State>
    requires p < |s.producers|
  {
    match s.producers[p]
    case Pushing(x) =>
      Some(s.(packets := s.packets + [x], pushed := s.pushed + [x],
              producers := s.producers[p := if s.policy == Normal then Counting else Finished]))
    case Counting => Some(s.(notificationsSent := s.notificationsSent + 1, producers := s.producers[p := Sending]))
    case Sending => Some(s.(version := s.version + 1, value := true, producers := s.producers[p := Finished]))
    case Finished => None
  }

  function Take(s: State, next: Consumer): State {
    s.(packets := [], batches := s.batches + [s.packets], consumer := next)
  }

  function ConsumeStep(s: State): Option<State> {
    match s.consumer
    case Waiting => if s.version > s.seen then Some(s.(seen := s.version, consumer := Changed)) else None
    case Changed => Some(s.(consumer := Looked(!s.value)))
    case Looked(false) => Some(Take(s, Waiting))
    case Looked(true) =>
      if s.packets == [] then Some(s.(consumer := Returned))
      else if s.notificationsSent > 0 then Some(Take(s, Returned))
      else Some(s.(consumer := Waiting))
    case Returned => None
  }

  function Step(s: State, a: Action): Option<State> {
    match a
    case Enqueue(x) => if s.shutdownSent then None else Some(s.(producers := s.producers + [Pushing(x)]))
    case Produce(p) => if p < |s.producers| then ProduceStep(s, p) else None
    case Shutdown =>
      if s.shutdownSent || !AllFinished(s.producers) then None
      else Some(s.(version := s.version + 1, value := false, shutdownSent := true))
    case Consume => ConsumeStep(s)
  }

  function Reach(policy: WakePolicy, actions: seq<Action>): Option<State> {
    Runs.Execute(Step, Start(policy), actions)
  }

  // ---------- the queue and the consumer as code ----------

  /** The contents behind the queue's lock. */
  class QueueContents {
    var packets: seq<nat>
    var notificationsSent: nat

    constructor ()
      ensures packets == [] && notificationsSent == 0
    {
      packets, notificationsSent := [], 0;
    }

    method Push(packet: nat)
      modifies this
      ensures packets == old(packets) + [packet] && notificationsSent == old(notificationsSent)
    {
      packets := packets + [packet];
    }

    /** The consumer's critical section: what it took, and whether `drain` returns. A
        shutdown with packets left and nothing ever notified takes nothing and waits on. */
    method Drain(shutdown: bool) returns (batch: Option<seq<nat>>, done: bool)
      modifies this
      ensures notificationsSent == old(notificationsSent)
      ensures batch.Some? ==> batch.value == old(packets) && packets == []
      ensures batch.None? ==> packets == old(packets)
      ensures batch.Some? <==> !shutdown || (old(packets) != [] && notificationsSent > 0)
      ensures done <==> shutdown && packets == []
    {
      var queueEmpty, notificationSent := true, false;
      batch := None;
      if shutdown {
        if packets != [] {
          queueEmpty := false;
          if notificationsSent > 0 {
            batch := Some(packets);
            packets := [];
            notificationSent := true;
          }
        }
      } else {
        batch := Some(packets);
        packets := [];
      }
      done := shutdown && (queueEmpty || notificationSent);
    }
  }

  // ---------- invariants ----------

  function Flatten(batches: seq<seq<nat>>): seq<nat> {
    if batches == [] then [] else Flatten(batches[..|batches| - 1]) + batches[|batches| - 1]
  }

  /** Nothing is lost, duplicated or reordered: taken then queued is exactly pushed. */
  ghost predicate Conserved(s: State) {
    Flatten(s.batches) + s.packets == s.pushed
  }

  lemma FlattenAppend(batches: seq<seq<nat>>, batch: seq<nat>)
    ensures Flatten(batches + [batch]) == Flatten(batches) + batch
  {
    assert (batches + [batch])[..|batches|] == batches;
  }

  lemma ProduceConserves(s: State, p: nat)
    requires Conserved(s) && p < |s.producers| && ProduceStep(s, p).Some?
    ensures Conserved(ProduceStep(s, p).value)
  {
    if s.producers[p].Pushing? {
      var x := s.producers[p].packet;
      assert Flatten(s.batches) + (s.packets + [x]) == (Flatten(s.batches) + s.packets) + [x];
    }
  }

  lemma TakeConserves(s: State, next: Consumer)
    requires Conserved(s)
    ensures Conserved(Take(s, next))
  {
    FlattenAppend(s.batches, s.packets);
    assert Flatten(s.batches) + s.packets + [] == s.pushed;
  }

  lemma ConsumeConserves(s: State)
    requires Conserved(s) && ConsumeStep(s).Some?
    ensures Conserved(ConsumeStep(s).value)
  {
    if s.consumer == Looked(false) {
      TakeConserves(s, Waiting);
    } else if s.consumer == Looked(true) && s.packets != [] && s.notificationsSent > 0 {
      TakeConserves(s, Returned);
    } else {
      assert ConsumeStep(s).value.batches == s.batches && ConsumeStep(s).value.packets == s.packets;
    }
  }

  lemma ConservedStep(s: State, a: Action)
    requires Conserved(s) && Step(s, a).Some?
    ensures Conserved(Step(s, a).value)
  {
    match a
    case Produce(p) => ProduceConserves(s, p);
    case Consume => ConsumeConserves(s);
    case _ =>
  }

  ghost predicate SomeNotPushing(producers: seq<Producer>) {
    exists i :: 0 <= i < |producers| && !producers[i].Pushing?
  }

  ghost predicate ProducersFit(s: State) {
    && (s.pushed != [] ==> SomeNotPushing(s.producers))
    && (s.policy == Normal ==>
          forall i :: 0 <= i < |s.producers| && (s.producers[i] == Sending || s.producers[i] == Finished) ==>
            s.notificationsSent > 0)
    && (s.policy != Normal ==>
          && s.notificationsSent == 0
          && forall i :: 0 <= i < |s.producers| ==> s.producers[i].Pushing? || s.producers[i] == Finished)
  }

  ghost predicate WatchFits(s: State) {
    && s.seen <= s.version
    && s.value == !s.shutdownSent
    && (s.shutdownSent ==> AllFinished(s.producers))
    && (s.consumer == Looked(true) || s.consumer == Returned ==> s.shutdownSent)
    && (s.consumer == Returned ==> s.packets == [])
    && (s.policy == Normal && s.shutdownSent && (s.consumer == Waiting || s.consumer == Looked(false)) ==>
          s.seen < s.version)
    && (s.policy != Normal ==>
          && s.batches == [] && s.consumer != Looked(false)
          && (s.shutdownSent || (s.version == 0 && s.consumer == Waiting)))
  }

  ghost predicate Inv(s: State) {
    Conserved(s) && ProducersFit(s) && WatchFits(s)
  }

  lemma ProduceFits(s: State, p: nat)
    requires ProducersFit(s) && p < |s.producers| && ProduceStep(s, p).Some?
    ensures ProducersFit(ProduceStep(s, p).value)
  {
    assert !ProduceStep(s, p).value.producers[p].Pushing?;
  }

  lemma EnqueueFits(s: State, x: nat)
    requires ProducersFit(s)
    ensures ProducersFit(s.(producers := s.producers + [Pushing(x)]))
  {
    if s.pushed != [] {
      var i :| 0 <= i < |s.producers| && !s.producers[i].Pushing?;
      assert !(s.producers + [Pushing(x)])[i].Pushing?;
    }
  }

  lemma ProducersStep(s: State, a: Action)
    requires ProducersFit(s) && Step(s, a).Some?
    ensures ProducersFit(Step(s, a).value)
  {
    match a
    case Enqueue(x) => EnqueueFits(s, x);
    case Produce(p) => ProduceFits(s, p);
    case _ =>
  }

  lemma NotifiedAtShutdown(s: State)
    requires ProducersFit(s) && s.policy == Normal && AllFinished(s.producers) && s.pushed != []
    ensures s.notificationsSent > 0
  {
  }

  lemma WatchStep(s: State, a: Action)
    requires Inv(s) && Step(s, a).Some?
    ensures WatchFits(Step(s, a).value)
  {
    if s.shutdownSent && s.policy == Normal && s.pushed != [] {
      NotifiedAtShutdown(s);
    }
  }

  lemma InvStep(s: State, a: Action)
    requires Inv(s) && Step(s, a).Some?
    ensures Inv(Step(s, a).value)
  {
    ConservedStep(s, a);
    ProducersStep(s, a);
    WatchStep(s, a);
  }

  lemma Reachable(policy: WakePolicy, actions: seq<Action>)
    requires Reach(policy, actions).Some?
    ensures Inv(Reach(policy, actions).value) && Reach(policy, actions).value.policy == policy
  {
    var inv := (s: State) => Inv(s) && s.policy == policy;
    forall s, a | inv(s) && Step(s, a).Some?
      ensures inv(Step(s, a).value)
    {
      InvStep(s, a);
    }
    Runs.Preserved(Step, inv, Start(policy), actions);
  }

  // ---------- what draining gives ----------

  /** Packet conservation: when `drain` has returned, the batches concatenate to exactly the
      packets pushed, in order, whatever the watch channel coalesced. */
  lemma DrainedIsPushed(policy: WakePolicy, actions: seq<Action>)
    requires Reach(policy, actions).Some? && Reach(policy, actions).value.consumer == Returned
    ensures var s := Reach(policy, actions).value; Flatten(s.batches) == s.pushed
  {
    Reachable(policy, actions);
    var s := Reach(policy, actions).value;
    assert Flatten(s.batches) + [] == Flatten(s.batches);
  }

  function StepsLeft(c: Consumer): nat {
    match c
    case Looked(false) => 4
    case Waiting => 3
    case Changed => 2
    case Looked(true) => 1
    case Returned => 0
  }

  lemma ShutdownStep(s: State)
    requires Inv(s) && s.policy == Normal && s.shutdownSent && s.consumer != Returned
    ensures var next := ConsumeStep(s);
            next.Some? && Inv(next.value) && next.value.policy == Normal && next.value.shutdownSent
            && StepsLeft(next.value.consumer) < StepsLeft(s.consumer)
  {
    if s.pushed != [] {
      NotifiedAtShutdown(s);
    }
    assert s.packets != [] ==> s.pushed != [];
    assert Step(s, Consume).Some?;
    InvStep(s, Consume);
  }

  /** `drain` is never left waiting: after shutdown the consumer's own next four steps at
      most, which nothing can disable, bring it to its return. */
  lemma {:induction false} DrainEndsAfterShutdown(s: State) returns (steps: seq<Action>)
    requires Inv(s) && s.policy == Normal && s.shutdownSent
    ensures |steps| <= StepsLeft(s.consumer) <= 4 && forall i :: 0 <= i < |steps| ==> steps[i] == Consume
    ensures var end := Runs.Execute(Step, s, steps); end.Some? && end.value.consumer == Returned
    decreases StepsLeft(s.consumer)
  {
    steps := [];
    if s.consumer != Returned {
      ShutdownStep(s);
      var more := DrainEndsAfterShutdown(ConsumeStep(s).value);
      steps := [Consume] + more;
      assert steps[1..] == more;
    }
  }

  // ---------- with the push wake suppressed ----------

  lemma PushedNotDrained(s: State)
    requires Inv(s) && s.policy == SuppressOnePushWake && s.pushed != []
    ensures s.consumer != Returned
  {
    assert Flatten(s.batches) == [];
  }

  /** With the push wake suppressed, any packet leaves `drain` waiting for good. */
  lemma SuppressedDrainNeverReturns(actions: seq<Action>)
    requires Reach(SuppressOnePushWake, actions).Some? && Reach(SuppressOnePushWake, actions).value.pushed != []
    ensures Reach(SuppressOnePushWake, actions).value.consumer != Returned
  {
    Reachable(SuppressOnePushWake, actions);
    PushedNotDrained(Reach(SuppressOnePushWake, actions).value);
  }

  /** With nothing pushed, the shutdown is still there for a waiting consumer to see. */
  ghost predicate ShutdownUnseen(s: State) {
    && Inv(s) && s.policy == SuppressOnePushWake
    && (s.shutdownSent && s.pushed == [] && s.consumer == Waiting ==> s.seen < s.version)
  }

  lemma ShutdownUnseenStep(s: State, a: Action)
    requires ShutdownUnseen(s) && Step(s, a).Some?
    ensures ShutdownUnseen(Step(s, a).value)
  {
    InvStep(s, a);
    assert s.consumer == Looked(true) && s.packets != [] ==> s.pushed != [];
  }

  /** From here `drain` can still return. */
  ghost predicate CanReturn(s: State) {
    exists more :: Returns(s, more)
  }

  ghost predicate Returns(s: State, more: seq<Action>) {
    var end := Runs.Execute(Step, s, more);
    end.Some? && end.value.consumer == Returned
  }

  lemma {:induction false} EmptyDrainReturns(s: State) returns (more: seq<Action>)
    requires ShutdownUnseen(s) && s.shutdownSent && s.pushed == []
    ensures Returns(s, more)
    decreases StepsLeft(s.consumer)
  {
    more := [];
    if s.consumer != Returned {
      assert s.packets == [];
      ShutdownUnseenStep(s, Consume);
      var rest := EmptyDrainReturns(Step(s, Consume).value);
      more := [Consume] + rest;
      assert more[1..] == rest;
    }
  }

  lemma {:induction false} PushedNeverReturns(s: State, more: seq<Action>)
    requires Inv(s) && s.policy == SuppressOnePushWake && s.pushed != []
    ensures !Returns(s, more)
    decreases |more|
  {
    PushedNotDrained(s);
    if more != [] && Step(s, more[0]).Some? {
      InvStep(s, more[0]);
      PushedNeverReturns(Step(s, more[0]).value, more[1..]);
    }
  }

  /** Exactly: once shut down, a queue with the wake suppressed can bring `drain` to its return
      iff nothing was pushed. */
  lemma SuppressedReturnsIffEmpty(actions: seq<Action>)
    requires Reach(SuppressOnePushWake, actions).Some? && Reach(SuppressOnePushWake, actions).value.shutdownSent
    ensures CanReturn(Reach(SuppressOnePushWake, actions).value) <==>
            Reach(SuppressOnePushWake, actions).value.pushed == []
  {
    forall s, a | ShutdownUnseen(s) && Step(s, a).Some?
      ensures ShutdownUnseen(Step(s, a).value)
    {
      ShutdownUnseenStep(s, a);
    }
    Runs.Preserved(Step, ShutdownUnseen, Start(SuppressOnePushWake), actions);
    var s := Reach(SuppressOnePushWake, actions).value;
    if s.pushed == [] {
      var more := EmptyDrainReturns(s);
    } else {
      forall more
        ensures !Returns(s, more)
      {
        PushedNeverReturns(s, more);
      }
    }
  }

  // ---------- read off the actions ----------

  /** The packets of the enqueue calls, in the order of the calls. */
  function Enqueued(actions: seq<Action>): seq<nat> {
    if actions == [] then []
    else
      var last := actions[|actions| - 1];
      Enqueued(actions[..|actions| - 1]) + if last.Enqueue? then [last.packet] else []
  }

  /** The packets in the order they are pushed: each by the first step of its call. */
  function PushOrder(actions: seq<Action>): seq<nat> {
    if actions == [] then []
    else
      var before, last := actions[..|actions| - 1], actions[|actions| - 1];
      PushOrder(before) +
        if last.Produce? && last !in before && last.p < |Enqueued(before)| then [Enqueued(before)[last.p]] else []
  }

  /** Calls stand for themselves: the p-th has yet to push its packet iff it has made no step. */
  ghost predicate CallsMatch(actions: seq<Action>, s: State) {
    && |s.producers| == |Enqueued(actions)| && s.pushed == PushOrder(actions)
    && (forall p: nat :: Produce(p) in actions ==> p < |s.producers|)
    && forall p :: 0 <= p < |s.producers| ==>
         if Produce(p) in actions then !s.producers[p].Pushing?
         else s.producers[p] == Pushing(Enqueued(actions)[p])
  }

  lemma CallsMatchStep(actions: seq<Action>, s: State, s': State)
    requires actions != [] && CallsMatch(actions[..|actions| - 1], s) && Step(s, actions[|actions| - 1]) == Some(s')
    ensures CallsMatch(actions, s')
  {
    var n := |actions| - 1;
    var before, last := actions[..n], actions[n];
    InSnoc(actions);
    assert |s'.producers| == |Enqueued(actions)|;
    if last.Produce? {
      assert s.producers[last.p].Pushing? <==> last !in before;
      assert s'.pushed == PushOrder(actions);
    }
  }

  lemma InSnoc(actions: seq<Action>)
    requires actions != []
    ensures forall a :: a in actions <==> a in actions[..|actions| - 1] || a == actions[|actions| - 1]
  {
    assert actions == actions[..|actions| - 1] + [actions[|actions| - 1]];
  }

  lemma {:induction false} CallsAlwaysMatch(policy: WakePolicy, actions: seq<Action>)
    requires Reach(policy, actions).Some?
    ensures CallsMatch(actions, Reach(policy, actions).value)
    decreases |actions|
  {
    if actions != [] {
      Runs.LastStep(Step, Start(policy), actions);
      CallsAlwaysMatch(policy, actions[..|actions| - 1]);
      CallsMatchStep(actions, Reach(policy, actions[..|actions| - 1]).value, Reach(policy, actions).value);
    }
  }

  function Occurs(packets: seq<nat>, x: nat): nat {
    if packets == [] then 0
    else Occurs(packets[..|packets| - 1], x) + if packets[|packets| - 1] == x then 1 else 0
  }

  lemma OccursSnoc(packets: seq<nat>, y: nat, x: nat)
    ensures Occurs(packets + [y], x) == Occurs(packets, x) + if y == x then 1 else 0
  {
    assert (packets + [y])[..|packets|] == packets;
  }

  function Holds(p: Producer, x: nat): nat {
    if p == Pushing(x) then 1 else 0
  }

  /** Calls that have yet to push a packet `x`. */
  function Unpushed(producers: seq<Producer>, x: nat): nat {
    if producers == [] then 0
    else Unpushed(producers[..|producers| - 1], x) + Holds(producers[|producers| - 1], x)
  }

  lemma {:induction false} UnpushedUpdate(producers: seq<Producer>, p: nat, next: Producer, x: nat)
    requires p < |producers|
    ensures Unpushed(producers[p := next], x) + Holds(producers[p], x) == Unpushed(producers, x) + Holds(next, x)
    decreases |producers|
  {
    var n := |producers| - 1;
    if p == n {
      assert producers[p := next][..n] == producers[..n];
    } else {
      assert producers[p := next][..n] == producers[..n][p := next];
      UnpushedUpdate(producers[..n], p, next, x);
    }
  }

  lemma {:induction false} AllPushed(producers: seq<Producer>, x: nat)
    requires AllFinished(producers)
    ensures Unpushed(producers, x) == 0
    decreases |producers|
  {
    if producers != [] {
      AllPushed(producers[..|producers| - 1], x);
    }
  }

  lemma CountedProduce(s: State, p: nat, x: nat)
    requires p < |s.producers| && ProduceStep(s, p).Some?
    ensures var s' := ProduceStep(s, p).value;
            Occurs(s'.pushed, x) + Unpushed(s'.producers, x) == Occurs(s.pushed, x) + Unpushed(s.producers, x)
  {
    var s' := ProduceStep(s, p).value;
    UnpushedUpdate(s.producers, p, s'.producers[p], x);
    if s.producers[p].Pushing? {
      OccursSnoc(s.pushed, s.producers[p].packet, x);
    }
  }

  lemma CountedStep(s: State, a: Action, x: nat)
    requires Step(s, a).Some?
    ensures var s' := Step(s, a).value;
            Occurs(s'.pushed, x) + Unpushed(s'.producers, x) ==
            Occurs(s.pushed, x) + Unpushed(s.producers, x) + if a == Enqueue(x) then 1 else 0
  {
    match a
    case Enqueue(y) => assert (s.producers + [Pushing(y)])[..|s.producers|] == s.producers;
    case Produce(p) => CountedProduce(s, p, x);
    case _ =>
  }

  lemma {:induction false} EveryPacketCounted(policy: WakePolicy, actions: seq<Action>, x: nat)
    requires Reach(policy, actions).Some?
    ensures var s := Reach(policy, actions).value;
            Occurs(s.pushed, x) + Unpushed(s.producers, x) == Occurs(Enqueued(actions), x)
    decreases |actions|
  {
    if actions != [] {
      var n := |actions| - 1;
      Runs.LastStep(Step, Start(policy), actions);
      EveryPacketCounted(policy, actions[..n], x);
      CountedStep(Reach(policy, actions[..n]).value, actions[n], x);
      if actions[n].Enqueue? {
        OccursSnoc(Enqueued(actions[..n]), actions[n].packet, x);
        assert Enqueued(actions) == Enqueued(actions[..n]) + [actions[n].packet];
      } else {
        assert Enqueued(actions) == Enqueued(actions[..n]);
      }
    }
  }

  /** Conservation, read off the actions: when `drain` has returned, its batches concatenate to
      the packets in the order their calls pushed them, and these are exactly the packets of all
      the enqueue calls, each once. */
  lemma DrainedIsEnqueued(policy: WakePolicy, actions: seq<Action>)
    requires Reach(policy, actions).Some? && Reach(policy, actions).value.consumer == Returned
    ensures var batches := Reach(policy, actions).value.batches;
            && Flatten(batches) == PushOrder(actions)
            && forall x :: Occurs(Flatten(batches), x) == Occurs(Enqueued(actions), x)
  {
    DrainedIsPushed(policy, actions);
    CallsAlwaysMatch(policy, actions);
    Reachable(policy, actions);
    forall x
      ensures Occurs(Reach(policy, actions).value.pushed, x) == Occurs(Enqueued(actions), x)
    {
      EveryPacketCounted(policy, actions, x);
      AllPushed(Reach(policy, actions).value.producers, x);
    }
  }

  /** Every call of `enqueue` can run to its end, and under the Normal policy its packet is
      pushed, counted and announced on the way; once all have ended, shutdown can come. */
  lemma CallsCanFinish(s: State, p: nat)
    requires p < |s.producers|
    ensures s.producers[p] != Finished <==> Step(s, Produce(p)).Some?
    ensures s.producers[p].Pushing? ==>
              && Step(s, Produce(p)).value.packets == s.packets + [s.producers[p].packet]
              && (s.policy == Normal ==> Step(s, Produce(p)).value.producers[p] == Counting)
    ensures s.producers[p] == Counting ==>
              && Step(s, Produce(p)).value.notificationsSent == s.notificationsSent + 1
              && Step(s, Produce(p)).value.producers[p] == Sending
    ensures s.producers[p] == Sending ==>
              && Step(s, Produce(p)).value.version == s.version + 1 && Step(s, Produce(p)).value.value
              && Step(s, Produce(p)).value.producers[p] == Finished
    ensures AllFinished(s.producers) && !s.shutdownSent ==> Step(s, Shutdown).Some?
  {
  }

  /** What the consumer does with what it saw: as the critical section of `drain` says. */
  lemma ConsumerTakes(s: State, shutdown: bool)
    requires s.consumer == Looked(shutdown)
    ensures var s' := Step(s, Consume);
            && s'.Some? && s'.value.batches + [s'.value.packets] == s.batches +
                 (if !shutdown || (s.packets != [] && s.notificationsSent > 0) then [s.packets, []] else [s.packets])
            && (s'.value.consumer == Returned <==> shutdown && s'.value.packets == [])
            && (s'.value.consumer == Returned || s'.value.consumer == Waiting)
  {
  }

}
