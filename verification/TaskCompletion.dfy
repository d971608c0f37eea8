/** Waiting for a task to end: the completion shared by a task and its handle. */
module TaskCompletion {

  import opened Options
  import Runs

  /** A waker, by the task it wakes. */
  type Waker = nat

  /** The fields behind the completion's lock. */
  class Completion {
    var finished: bool
    var waker: Option<Waker>

    constructor ()
      ensures !finished && waker == None
    {
      finished, waker := false, None;
    }

    /** The locked half of `complete`: marks the end and takes the stored waker out. */
    method Finish() returns (taken: Option<Waker>)
      modifies this
      ensures finished && waker == None && taken == old(waker)
    {
      finished := true;
      taken := waker;
      waker := None;
    }

    /** Polls on behalf of `w`; a pending poll leaves `w` as the waker to be called. */
    method Poll(w: Waker) returns (ready: bool)
      modifies this`waker
      ensures ready == finished
      ensures waker == if finished then old(waker) else Some(w)
    {
      if finished {
        return true;
      }
      if waker != Some(w) {
        waker := Some(w);
      }
      return false;
    }
  }

  // ---------- every interleaving of polls and completion ----------

  /** `complete` wakes after releasing the lock, so a poll may come in between. */
  datatype Completer = NotYet | Taken(waker: Option<Waker>) | Done

  /** `waiting` is the waker of the handle's most recent pending poll. */
  datatype State = State(finished: bool, waker: Option<Waker>, completer: Completer,
                         waiting: Option<Waker>, woken: set<Waker>)

  const START := State(false, None, NotYet, None, {})

  datatype Action = Finish | Wake | PollHandle(waker: Waker)

  function Step(s: State, a: Action): Option<State> {
    match a
    case Finish =>
      if s.completer == NotYet then Some(s.(finished := true, waker := None, completer := Taken(s.waker))) else None
    case Wake =>
      if s.completer.Taken?
      then
        var called := if s.completer.waker.Some? then {s.completer.waker.value} else {};
        Some(s.(completer := Done, woken := s.woken + called))
      else None
    case PollHandle(w) =>
      if s.finished then Some(s.(waiting := None)) else Some(s.(waker := Some(w), waiting := Some(w)))
  }

  function Reach(actions: seq<Action>): Option<State> {
    Runs.Execute(Step, START, actions)
  }

  ghost predicate Inv(s: State) {
    && s.finished == (s.completer != NotYet)
    && (s.waiting.Some? ==>
          if s.finished then s.completer == Taken(s.waiting) || (s.completer == Done && s.waiting.value in s.woken)
          else s.waker == s.waiting)
  }

  lemma StepKeepsInv(s: State, a: Action)
    requires Inv(s) && Step(s, a).Some?
    ensures Inv(Step(s, a).value)
  {
  }

  /** No lost wake-up: a handle left pending is woken through its latest waker. Until
      completion that waker is the stored one, and when completion is over it was called. */
  lemma PendingHandleIsWoken(actions: seq<Action>)
    requires Reach(actions).Some? && Reach(actions).value.waiting.Some?
    ensures var s := Reach(actions).value;
            && (s.completer == NotYet ==> s.waker == s.waiting)
            && (s.completer.Taken? ==> s.completer.waker == s.waiting)
            && (s.completer == Done ==> s.waiting.value in s.woken)
  {
    Runs.Preserved(Step, Inv, START, actions);
  }

  /** Once the completer has the waker `w`, it is called exactly when it gets to it. */
  lemma {:induction false} TakenIsCalled(s: State, w: Waker, later: seq<Action>)
    requires s.completer == Taken(Some(w)) || (s.completer == Done && w in s.woken)
    requires Runs.Execute(Step, s, later).Some?
    ensures var end := Runs.Execute(Step, s, later).value;
            if s.completer == Done || Wake in later then end.completer == Done && w in end.woken
            else end.completer == Taken(Some(w))
    decreases |later|
  {
    if later != [] {
      TakenIsCalled(Step(s, later[0]).value, w, later[1..]);
    }
  }

  /** Read off the actions: if the handle's last poll before the task ended was for `w`, then
      whatever comes after, `w` is called as soon as the completer wakes, which it can do. */
  lemma LastPollIsWoken(before: seq<Action>, w: Waker, later: seq<Action>)
    requires Reach(before).Some? && Reach(before + ([PollHandle(w), Finish] + later)).Some?
    ensures var end := Reach(before + ([PollHandle(w), Finish] + later)).value;
            if Wake in later then w in end.woken else Step(end, Wake).Some? && w in Step(end, Wake).value.woken
  {
    var s := Reach(before).value;
    var run := [PollHandle(w), Finish] + later;
    Runs.Preserved(Step, Inv, START, before);
    Runs.Concatenated(Step, START, before, run);
    assert run[1..] == [Finish] + later && run[1..][1..] == later;
    var polled := Step(s, PollHandle(w)).value;
    assert Runs.Execute(Step, polled, [Finish] + later).Some?;
    TakenIsCalled(Step(polled, Finish).value, w, later);
  }
}
