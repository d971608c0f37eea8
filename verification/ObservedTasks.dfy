/** Observed task spawning: a user future wrapped in two observing layers and run by
    tokio, against the same future given to tokio directly. */
module ObservedTasks {

  import opened Options
  import opened Words
  import Runs
  import TaskCompletion

  /** One poll of a future: `Panic` is an unwinding poll. */
  datatype PollOut<T> = Pending | Ready(value: T) | Panic

  /** A user future by what its k-th poll does: any number of pendings, then a value or a panic. */
  type Future<!T> = nat -> PollOut<T>

  // ---------- the two observing layers ----------

  datatype Outcome = WasPending | WasReady | WasPanicked

  datatype TaskEvent = PollStarted(attempt: nat) | PollCompleted(attempt: nat, outcome: Outcome) | TaskFinished

  /** `polls` counts polls of the user future; `output` and `panicked` are the slot and flag
      shared with the handle; `attempt` and `finished` belong to the outer layer. */
  datatype Layers<T> = Layers(polls: nat, output: Option<T>, panicked: bool,
                              attempt: nat, finished: bool, log: seq<TaskEvent>)

  function NewLayers<T>(): Layers<T> {
    Layers(0, None, false, 0, false, [])
  }

  /** The inner layer: publishes a value; notes a panic and lets it unwind further. */
  function PublishPoll<T>(l: Layers<T>, out: PollOut<T>): (Layers<T>, PollOut<()>) {
    var polled := l.(polls := l.polls + 1);
    match out
    case Pending => (polled, Pending)
    case Ready(v) => (polled.(output := Some(v)), Ready(()))
    case Panic => (polled.(panicked := true), Panic)
  }

  function OutcomeOf(out: PollOut<()>): Outcome {
    match out
    case Pending => WasPending
    case Ready(_) => WasReady
    case Panic => WasPanicked
  }

  function Bracket(attempt: nat, outcome: Outcome): seq<TaskEvent> {
    [PollStarted(attempt), PollCompleted(attempt, outcome)]
  }

  /** The outer layer: brackets the poll and turns a panic into completion. */
  function ObservedPoll<T>(l: Layers<T>, future: Future<T>): (Layers<T>, PollOut<()>) {
    if l.finished then (l, Ready(()))
    else
      var (published, out) := PublishPoll(l, future(l.polls));
      var outcome := OutcomeOf(out);
      var done := outcome != WasPending;
      (published.(attempt := SaturatingAdd(l.attempt, 1), finished := done,
                  log := l.log + Bracket(l.attempt, outcome) + if done then [TaskFinished] else []),
       if done then Ready(()) else Pending)
  }

  // ---------- tokio, and the two handles ----------

  datatype JoinResult<T> = Completed(value: T) | Cancelled | Panicked

  datatype TokioTask<T> = Live(abortRequested: bool) | Over(result: JoinResult<T>)

  /** The runtime schedules the task: a requested abort is applied instead of a poll. */
  function AfterPoll<T>(out: PollOut<T>): TokioTask<T> {
    match out
    case Pending => Live(false)
    case Ready(v) => Over(Completed(v))
    case Panic => Over(Panicked)
  }

  /** What polling a handle yields; `Broken` is the failing `expect` on the output slot. */
  datatype Join<T> = NotYet | Ok(value: T) | WasCancelled | DidPanic | Broken

  datatype NativeRun<T> = NativeRun(polls: nat, task: TokioTask<T>, joins: seq<Join<T>>)

  datatype ObservedRun<T> = ObservedRun(layers: Layers<T>, task: TokioTask<()>, joins: seq<Join<T>>)

  datatype Action = Schedule | Abort | PollHandle

  /** A handle that has resolved is not polled again. */
  predicate Resolved<T>(joins: seq<Join<T>>) {
    joins != [] && !joins[|joins| - 1].NotYet?
  }

  function NativeJoin<T>(task: TokioTask<T>): Join<T> {
    match task
    case Live(_) => NotYet
    case Over(Completed(v)) => Ok(v)
    case Over(Cancelled) => WasCancelled
    case Over(Panicked) => DidPanic
  }

  function ObservedJoin<T>(layers: Layers<T>, task: TokioTask<()>): Join<T> {
    match task
    case Live(_) => NotYet
    case Over(Cancelled) => WasCancelled
    case Over(Panicked) => DidPanic
    case Over(Completed(_)) =>
      if layers.panicked then DidPanic
      else if layers.output.Some? then Ok(layers.output.value) else Broken
  }

  function NativeStep<T>(future: Future<T>, s: NativeRun<T>, a: Action): Option<NativeRun<T>> {
    match a
    case Schedule =>
      if s.task.Over? then None
      else if s.task.abortRequested then Some(s.(task := Over(Cancelled)))
      else Some(s.(polls := s.polls + 1, task := AfterPoll(future(s.polls))))
    case Abort => Some(if s.task.Live? then s.(task := Live(true)) else s)
    case PollHandle => if Resolved(s.joins) then None else Some(s.(joins := s.joins + [NativeJoin(s.task)]))
  }

  function ObservedStep<T>(future: Future<T>, s: ObservedRun<T>, a: Action): Option<ObservedRun<T>> {
    match a
    case Schedule =>
      if s.task.Over? then None
      else if s.task.abortRequested then Some(s.(task := Over(Cancelled)))
      else
        var (layers, out) := ObservedPoll(s.layers, future);
        Some(s.(layers := layers, task := AfterPoll(out)))
    case Abort => Some(if s.task.Live? then s.(task := Live(true)) else s)
    case PollHandle =>
      if Resolved(s.joins) then None
      else
        var join := ObservedJoin(s.layers, s.task);
        Some(s.(joins := s.joins + [join], layers := if join.Ok? then s.layers.(output := None) else s.layers))
  }

  /** The observed run mirrors the native one. */
  ghost predicate Mirrors<T>(n: NativeRun<T>, o: ObservedRun<T>) {
    && n.joins == o.joins && n.polls == o.layers.polls
    && Broken !in n.joins
    && match n.task
       case Live(abort) => o.task == Live(abort) && !o.layers.finished && o.layers.output == None && !o.layers.panicked
       case Over(Cancelled) => o.task == Over(Cancelled)
       case Over(Panicked) => o.task == Over(Completed(())) && o.layers.panicked
       case Over(Completed(v)) =>
         o.task == Over(Completed(())) && !o.layers.panicked && (o.layers.output == Some(v) || Resolved(o.joins))
  }

  lemma StepMirrors<T>(future: Future<T>, n: NativeRun<T>, o: ObservedRun<T>, a: Action)
    requires Mirrors(n, o)
    ensures NativeStep(future, n, a).Some? <==> ObservedStep(future, o, a).Some?
    ensures NativeStep(future, n, a).Some? ==>
              Mirrors(NativeStep(future, n, a).value, ObservedStep(future, o, a).value)
  {
  }

  function NativeRunOf<T>(future: Future<T>, actions: seq<Action>): Option<NativeRun<T>> {
    Runs.Execute((s, a) => NativeStep(future, s, a), NativeRun(0, Live(false), []), actions)
  }

  function ObservedRunOf<T>(future: Future<T>, actions: seq<Action>): Option<ObservedRun<T>> {
    Runs.Execute((s, a) => ObservedStep(future, s, a), ObservedRun(NewLayers(), Live(false), []), actions)
  }

  lemma {:induction false} RunsMirror<T>(future: Future<T>, n: NativeRun<T>, o: ObservedRun<T>, actions: seq<Action>)
    requires Mirrors(n, o)
    ensures var n' := Runs.Execute((s, a) => NativeStep(future, s, a), n, actions);
            var o' := Runs.Execute((s, a) => ObservedStep(future, s, a), o, actions);
            && (n'.Some? <==> o'.Some?)
            && (n'.Some? ==> Mirrors(n'.value, o'.value))
    decreases |actions|
  {
    if actions != [] {
      StepMirrors(future, n, o, actions[0]);
      if NativeStep(future, n, actions[0]).Some? {
        var n', o' := NativeStep(future, n, actions[0]).value, ObservedStep(future, o, actions[0]).value;
        RunsMirror(future, n', o', actions[1..]);
      }
    }
  }

  /** Observation is transparent: whatever the future does and whenever the runtime, an
      abort or the handle moves, the observed handle answers as the native one would, and
      the `expect` on the output slot never fails. */
  lemma ObservationIsTransparent<T>(future: Future<T>, actions: seq<Action>)
    ensures NativeRunOf(future, actions).Some? <==> ObservedRunOf(future, actions).Some?
    ensures NativeRunOf(future, actions).Some? ==>
              && ObservedRunOf(future, actions).value.joins == NativeRunOf(future, actions).value.joins
              && Broken !in ObservedRunOf(future, actions).value.joins
  {
    RunsMirror(future, NativeRun(0, Live(false), []), ObservedRun(NewLayers(), Live(false), []), actions);
  }

  // ---------- what the answers are ----------

  ghost predicate AllPending<T(!new)>(future: Future<T>, n: nat) {
    forall k: nat :: k < n ==> future(k) == Pending
  }

  /** The task is where the future's polls have brought it, and a handle's answer says where. */
  ghost predicate FollowsFuture<T(!new)>(future: Future<T>, n: NativeRun<T>, aborted: bool) {
    && (n.task.Live? ==> AllPending(future, n.polls) && (n.task.abortRequested ==> aborted))
    && (n.task.Over? && n.task.result.Cancelled? ==> AllPending(future, n.polls) && aborted)
    && (n.task.Over? && !n.task.result.Cancelled? ==>
          && n.polls > 0 && AllPending(future, n.polls - 1)
          && future(n.polls - 1) == if n.task.result.Panicked? then Panic else Ready(n.task.result.value))
    && (forall i :: 0 <= i < |n.joins| ==> AnswerFits(future, n.polls, n.joins[i], aborted))
    && (Resolved(n.joins) ==> n.task.Over?)
  }

  /** What each answer means for a future that was polled `polls` times. */
  ghost predicate AnswerFits<T(!new)>(future: Future<T>, polls: nat, answer: Join<T>, aborted: bool) {
    match answer
    case NotYet => true
    case Ok(v) => polls > 0 && AllPending(future, polls - 1) && future(polls - 1) == Ready(v)
    case DidPanic => polls > 0 && AllPending(future, polls - 1) && future(polls - 1) == Panic
    case WasCancelled => AllPending(future, polls) && aborted
    case Broken => false
  }

  lemma FollowsStep<T(!new)>(future: Future<T>, n: NativeRun<T>, aborted: bool, a: Action)
    requires FollowsFuture(future, n, aborted) && OnlyLastResolved(n.joins) && NativeStep(future, n, a).Some?
    ensures FollowsFuture(future, NativeStep(future, n, a).value, aborted || a == Abort)
    ensures OnlyLastResolved(NativeStep(future, n, a).value.joins)
  {
    var n' := NativeStep(future, n, a).value;
    if a == Schedule {
      assert Resolved(n.joins) ==> n.task.Over?;
      assert !Resolved(n.joins);
      assert forall i :: 0 <= i < |n.joins| ==> n.joins[i] == NotYet;
    }
  }

  ghost predicate OnlyLastResolved<T(!new)>(joins: seq<Join<T>>) {
    forall i :: 0 <= i < |joins| - 1 ==> joins[i] == NotYet
  }

  lemma {:induction false} RunFollows<T(!new)>(future: Future<T>, n: NativeRun<T>, aborted: bool, actions: seq<Action>)
    requires FollowsFuture(future, n, aborted) && OnlyLastResolved(n.joins)
    requires Runs.Execute((s, a) => NativeStep(future, s, a), n, actions).Some?
    ensures var end := Runs.Execute((s, a) => NativeStep(future, s, a), n, actions).value;
            FollowsFuture(future, end, aborted || Abort in actions) && OnlyLastResolved(end.joins)
    decreases |actions|
  {
    if actions != [] {
      FollowsStep(future, n, aborted, actions[0]);
      RunFollows(future, NativeStep(future, n, actions[0]).value, aborted || actions[0] == Abort, actions[1..]);
      assert (Abort in actions) == (actions[0] == Abort || Abort in actions[1..]);
    }
  }

  /** What every answer of either handle means: a value is the one the future's last poll was
      ready with, a panic is its last poll's, every earlier poll was pending, and a cancelled
      task was aborted before it ended. All answers but the last say "not yet". */
  lemma AnswersFollowFuture<T(!new)>(future: Future<T>, actions: seq<Action>)
    requires NativeRunOf(future, actions).Some?
    ensures FollowsFuture(future, NativeRunOf(future, actions).value, Abort in actions)
    ensures OnlyLastResolved(NativeRunOf(future, actions).value.joins)
  {
    RunFollows(future, NativeRun(0, Live(false), []), false, actions);
  }

  /** And answers do come: a live task's future is polled when scheduled, unless an abort was
      asked for, which then ends it; a handle on a task that is over answers at once. */
  lemma TasksMove<T(!new)>(future: Future<T>, n: NativeRun<T>)
    ensures n.task == Live(false) ==>
              && NativeStep(future, n, Schedule).Some? && NativeStep(future, n, Schedule).value.polls == n.polls + 1
              && (NativeStep(future, n, Schedule).value.task.Live? <==> future(n.polls) == Pending)
    ensures n.task.Live? ==>
              && NativeStep(future, n, Abort).Some?
              && NativeStep(future, NativeStep(future, n, Abort).value, Schedule).Some?
              && NativeStep(future, NativeStep(future, n, Abort).value, Schedule).value.task == Over(Cancelled)
    ensures n.task.Over? && !Resolved(n.joins) ==>
              && NativeStep(future, n, PollHandle).Some? && Resolved(NativeStep(future, n, PollHandle).value.joins)
              && (n.task.result.Completed? ==>
                    NativeStep(future, n, PollHandle).value.joins == n.joins + [Ok(n.task.result.value)])
              && (n.task.result.Panicked? ==> NativeStep(future, n, PollHandle).value.joins == n.joins + [DidPanic])
              && (n.task.result.Cancelled? ==>
                    NativeStep(future, n, PollHandle).value.joins == n.joins + [WasCancelled])
  {
  }

  // ---------- the task's own log ----------

  /** Brackets 0, 1, ..., n-1, every one pending; attempt numbers stop growing at the top of u64. */
  function PendingBrackets(n: nat): seq<TaskEvent> {
    if n == 0 then []
    else PendingBrackets(n - 1) + [PollStarted(AttemptNumber(n - 1)), PollCompleted(AttemptNumber(n - 1), WasPending)]
  }

  function AttemptNumber(n: nat): nat {
    if n < U64_MAX then n else U64_MAX
  }

  /** n brackets and a finish: the last poll ended the task. */
  function EndedLog(n: nat, outcome: Outcome): seq<TaskEvent>
    requires n > 0
  {
    PendingBrackets(n - 1)
    + [PollStarted(AttemptNumber(n - 1)), PollCompleted(AttemptNumber(n - 1), outcome), TaskFinished]
  }

  /** The log is what the future's polls make it: pending brackets and, once a poll was ready or
      panicked, one last bracket that says which, and one finish. */
  ghost predicate LogFollows<T>(l: Layers<T>, future: Future<T>) {
    && l.attempt == AttemptNumber(l.polls)
    && (!l.finished ==> l.log == PendingBrackets(l.polls))
    && (l.finished ==>
          && l.polls > 0
          && match future(l.polls - 1)
             case Pending => false
             case Ready(_) => l.log == EndedLog(l.polls, WasReady)
             case Panic => l.log == EndedLog(l.polls, WasPanicked))
  }

  /** Polling keeps the log so, and a finished task logs nothing more. */
  lemma PollKeepsGrammar<T>(l: Layers<T>, future: Future<T>)
    requires LogFollows(l, future)
    ensures LogFollows(ObservedPoll(l, future).0, future)
    ensures l.finished ==> ObservedPoll(l, future) == (l, Ready(()))
  {
    if !l.finished {
      var l' := ObservedPoll(l, future).0;
      assert l'.polls == l.polls + 1;
      if l'.finished {
        var outcome := OutcomeOf(PublishPoll(l, future(l.polls)).1);
        assert l'.log == PendingBrackets(l.polls)
                         + ([PollStarted(l.attempt), PollCompleted(l.attempt, outcome)] + [TaskFinished]);
      } else {
        assert l'.log == PendingBrackets(l.polls) + [PollStarted(l.attempt), PollCompleted(l.attempt, WasPending)];
      }
    }
  }

  /** Every run's task log is consecutive brackets ending in at most one finish, as its future's
      polls went. */
  lemma TaskLogGrammar<T(!new)>(future: Future<T>, actions: seq<Action>)
    requires ObservedRunOf(future, actions).Some?
    ensures LogFollows(ObservedRunOf(future, actions).value.layers, future)
  {
    var step := (s: ObservedRun<T>, a: Action) => ObservedStep(future, s, a);
    var inv := (s: ObservedRun<T>) => LogFollows(s.layers, future);
    forall s: ObservedRun<T>, a | inv(s) && step(s, a).Some?
      ensures inv(step(s, a).value)
    {
      PollKeepsGrammar(s.layers, future);
    }
    Runs.Preserved(step, inv, ObservedRun(NewLayers(), Live(false), []), actions);
  }

  /** The observed log tells how the native task ends: ready if it would complete, panicked if
      it would panic, and nothing but pending polls if it is cancelled or still live. */
  lemma LogTellsNativeEnd<T(!new)>(future: Future<T>, actions: seq<Action>)
    requires NativeRunOf(future, actions).Some?
    ensures ObservedRunOf(future, actions).Some?
    ensures var n, log := NativeRunOf(future, actions).value, ObservedRunOf(future, actions).value.layers.log;
            match n.task
            case Live(_) => log == PendingBrackets(n.polls)
            case Over(Cancelled) => log == PendingBrackets(n.polls)
            case Over(Completed(_)) => n.polls > 0 && log == EndedLog(n.polls, WasReady)
            case Over(Panicked) => n.polls > 0 && log == EndedLog(n.polls, WasPanicked)
  {
    RunsMirror(future, NativeRun(0, Live(false), []), ObservedRun(NewLayers(), Live(false), []), actions);
    TaskLogGrammar(future, actions);
    AnswersFollowFuture(future, actions);
    CancelledIsUnfinished(future, NativeRun(0, Live(false), []), ObservedRun(NewLayers(), Live(false), []), actions);
  }

  /** A task over by cancellation has unfinished layers. */
  ghost predicate EndsAgree<T>(n: NativeRun<T>, o: ObservedRun<T>) {
    o.layers.finished <==> n.task.Over? && !n.task.result.Cancelled?
  }

  lemma {:induction false} CancelledIsUnfinished<T>(
    future: Future<T>, n: NativeRun<T>, o: ObservedRun<T>, actions: seq<Action>)
    requires Mirrors(n, o) && EndsAgree(n, o)
    requires Runs.Execute((s, a) => NativeStep(future, s, a), n, actions).Some?
    ensures var o' := Runs.Execute((s, a) => ObservedStep(future, s, a), o, actions);
            o'.Some? && EndsAgree(Runs.Execute((s, a) => NativeStep(future, s, a), n, actions).value, o'.value)
    decreases |actions|
  {
    if actions != [] {
      StepMirrors(future, n, o, actions[0]);
      var n', o' := NativeStep(future, n, actions[0]).value, ObservedStep(future, o, actions[0]).value;
      CancelledIsUnfinished(future, n', o', actions[1..]);
    }
  }

  /** What the outer layer does to the outside: an event to the hook, or the completion of the
      task's handle, which wakes the waker taken out of it. */
  datatype Effect = Log(event: TaskEvent) | CompleteHandle(woken: Option<TaskCompletion.Waker>)

  /** The outer layer as the object tokio polls; tasks spawned on their own have no completion. */
  class ObservedTask {
    const completion: Option<TaskCompletion.Completion>
    var attempt: nat
    var finished: bool
    var effects: seq<Effect>

    constructor (completion: Option<TaskCompletion.Completion>)
      ensures this.completion == completion && attempt == 0 && !finished && effects == []
    {
      this.completion, attempt, finished, effects := completion, 0, false, [];
    }

    /** `inner` is what polling the wrapped future did; it is not polled once finished. The
        handle is completed after the closing bracket and before the finish is reported. */
    method Poll(inner: PollOut<()>) returns (out: PollOut<()>)
      modifies this, if completion.Some? then {completion.value} else {}
      ensures old(finished) ==> out == Ready(()) && effects == old(effects) && attempt == old(attempt) && finished
      ensures !old(finished) ==>
                && attempt == SaturatingAdd(old(attempt), 1)
                && finished == !inner.Pending?
                && var handle := if completion.None? then [] else [CompleteHandle(old(completion.value.waker))];
                   effects == old(effects) + [Log(PollStarted(old(attempt)))] +
                     match inner
                     case Pending => [Log(PollCompleted(old(attempt), WasPending))]
                     case Ready(_) => [Log(PollCompleted(old(attempt), WasReady))] + handle + [Log(TaskFinished)]
                     case Panic => [Log(PollCompleted(old(attempt), WasPanicked))] + handle + [Log(TaskFinished)]
      ensures completion.Some? && !old(finished) && finished ==>
                completion.value.finished && completion.value.waker == None
      ensures completion.Some? && (old(finished) || !finished) ==>
                && completion.value.finished == old(completion.value.finished)
                && completion.value.waker == old(completion.value.waker)
      ensures !out.Panic? && (out.Ready? <==> finished)
    {
      if finished {
        return Ready(());
      }
      var current := attempt;
      attempt := SaturatingAdd(attempt, 1);
      effects := effects + [Log(PollStarted(current))];
      var outcome := OutcomeOf(inner);
      effects := effects + [Log(PollCompleted(current, outcome))];
      if outcome == WasPending {
        return Pending;
      }
      finished := true;
      if completion.Some? {
        var woken := completion.value.Finish();
        effects := effects + [CompleteHandle(woken)];
      }
      effects := effects + [Log(TaskFinished)];
      return Ready(());
    }
  }
}
