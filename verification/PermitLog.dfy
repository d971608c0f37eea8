/** The semaphore's permits as its log alone shows them: taken against given. */
module PermitLog {

  import opened Options
  import opened LockSeam
  import CreationReport
  import Runs

  function EventAdds(e: Event): nat {
    if e.PermitsAdded? then e.n else 0
  }

  function LoggedAdds(log: seq<Event>): nat {
    if log == [] then 0 else LoggedAdds(log[..|log| - 1]) + EventAdds(log[|log| - 1])
  }

  /** Permits given to the real semaphore by a call that has not reported them yet. */
  function UnreportedSize(c: Caller): nat {
    if c.pc.Adding? && c.kind.Add? then c.kind.n else 0
  }

  ghost predicate AddsMatch(s: State) {
    KindsFit(s) && s.added == LoggedAdds(s.log) + Sum(s.callers, UnreportedSize)
  }

  lemma AddsChange(s: State, a: Action)
    requires AddsMatch(s) && Step(s, a).Some?
    ensures AddsMatch(Step(s, a).value)
  {
    var ch := ChangeOf(s, a).value;
    ChangeShape(s, a);
    KindsChange(s, ch);
    SumChange(s, ch, UnreportedSize);
    AddsShape(s, a);
    if ch.event.Some? {
      assert (s.log + [ch.event.value])[..|s.log|] == s.log;
    }
  }

  lemma AddsShape(s: State, a: Action)
    requires KindsFit(s) && ChangeOf(s, a).Some?
    ensures var ch := ChangeOf(s, a).value;
            (if ch.event.Some? then EventAdds(ch.event.value) else 0) + UnreportedSize(ch.caller) ==
            ch.added + if ch.c < |s.callers| then UnreportedSize(s.callers[ch.c]) else 0
  {
    assert a.On? ==> CallerFits(s.lock, s.callers[a.c]);
  }

  /** Measured by the log alone, the bound needs the permits whose report is still in
      flight: it holds against the logged additions when no `add_permits` call is. */
  lemma LoggedPermitsWithinLoggedAdds(initial: nat, actions: seq<Action>)
    requires Reach(Semaphore(initial), actions).Some?
    ensures var s := Reach(Semaphore(initial), actions).value;
            LoggedPermits(s.log) <= initial + LoggedAdds(s.log) + Sum(s.callers, UnreportedSize)
  {
    LoggedPermitsWithinCapacity(initial, actions);
    forall s, a | AddsMatch(s) && Step(s, a).Some?
      ensures AddsMatch(Step(s, a).value)
    {
      AddsChange(s, a);
    }
    Runs.Preserved(Step, AddsMatch, Start(Semaphore(initial)), actions);
  }

  // ---------- exactly when the log shows more taken than given ----------

  /** No permits are added on the way, and the report of no addition is made. */
  ghost predicate AddsNothing(s: State, run: seq<Action>) {
    && (forall i :: 0 <= i < |run| ==> !run[i].AddPermits?)
    && (Runs.Execute(Step, s, run).Some? ==>
          LoggedAdds(Runs.Execute(Step, s, run).value.log) == LoggedAdds(s.log))
  }

  ghost predicate Exceeds(s: State, run: seq<Action>) {
    var end := Runs.Execute(Step, s, run);
    end.Some? && s.lock.Semaphore? && LoggedPermits(end.value.log) > s.lock.initial + LoggedAdds(end.value.log)
  }

  /** From here the log can come to show more permits out than it has shown given. */
  ghost predicate CanExceed(s: State) {
    exists run :: AddsNothing(s, run) && Exceeds(s, run)
  }

  lemma {:induction false} AddedStays(s: State, run: seq<Action>)
    requires (forall i :: 0 <= i < |run| ==> !run[i].AddPermits?) && Runs.Execute(Step, s, run).Some?
    ensures Runs.Execute(Step, s, run).value.added == s.added
    ensures Runs.Execute(Step, s, run).value.lock == s.lock
    decreases |run|
  {
    if run != [] {
      assert ChangeOf(s, run[0]).value.added == 0;
      AddedStays(Step(s, run[0]).value, run[1..]);
    }
  }

  ghost predicate Fit(s: State) {
    Inv(s) && AddsMatch(s) && s.lock.Semaphore?
  }

  lemma FitStep(s: State, a: Action)
    requires Fit(s) && Step(s, a).Some?
    ensures Fit(Step(s, a).value)
  {
    ChangeShape(s, a);
    ChangeKeepsInv(s, ChangeOf(s, a).value);
    AddsChange(s, a);
  }

  lemma FitRun(s: State, run: seq<Action>)
    requires Fit(s) && Runs.Execute(Step, s, run).Some?
    ensures Fit(Runs.Execute(Step, s, run).value)
  {
    forall t, a | Fit(t) && Step(t, a).Some?
      ensures Fit(Step(t, a).value)
    {
      FitStep(t, a);
    }
    Runs.Preserved(Step, Fit, s, run);
  }

  lemma AllReportedStaysWithin(s: State, run: seq<Action>)
    requires Fit(s) && Sum(s.callers, UnreportedSize) == 0 && AddsNothing(s, run)
    ensures !Exceeds(s, run)
  {
    if Runs.Execute(Step, s, run).Some? {
      var end := Runs.Execute(Step, s, run).value;
      FitRun(s, run);
      AddedStays(s, run);
      SumBounded(end.callers, LoggedSize, RealSize);
    }
  }

  // ---------- finishing what callers have begun ----------

  /** The log and the real lock agree about this caller. */
  predicate Settled(c: Caller) {
    !c.pc.Granted? && c.pc != Returning
  }

  /** `end` differs from `s` in caller `c` alone, which is settled and whose kind is the same. */
  ghost predicate SettledAt(s: State, c: nat, run: seq<Action>) {
    && (forall i :: 0 <= i < |run| ==> !run[i].AddPermits?)
    && Runs.Execute(Step, s, run).Some?
    && var end := Runs.Execute(Step, s, run).value;
       && |end.callers| == |s.callers|
       && c < |s.callers| && Settled(end.callers[c]) && end.callers[c].kind == s.callers[c].kind
       && (forall d :: 0 <= d < |s.callers| && d != c ==> end.callers[d] == s.callers[d])
       && LoggedAdds(end.log) == LoggedAdds(s.log)
  }

  lemma EventAdded(log: seq<Event>, e: Event)
    ensures LoggedAdds(log + [e]) == LoggedAdds(log) + EventAdds(e)
  {
    assert (log + [e])[..|log|] == log;
  }

  /** One report step of a caller that has the real lock. */
  lemma ReportGranted(s: State, c: nat)
    requires c < |s.callers| && s.callers[c].pc.Granted?
    ensures var end := Step(s, On(c, Report));
            && end.Some? && |end.value.callers| == |s.callers|
            && (forall d :: 0 <= d < |s.callers| && d != c ==> end.value.callers[d] == s.callers[d])
            && end.value.callers[c].kind == s.callers[c].kind
            && LoggedAdds(end.value.log) == LoggedAdds(s.log)
            && (s.callers[c].pc.stage == Ready ==> end.value.callers[c].pc == Held)
            && (s.callers[c].pc.stage != Ready ==> end.value.callers[c].pc.Granted?)
            && (s.callers[c].pc.stage == MustCreate ==> end.value.callers[c].pc.stage == Ready)
            && (s.callers[c].pc.stage == BeforeSwap ==> end.value.callers[c].pc.stage != BeforeSwap)
  {
    var ch := ChangeOf(s, On(c, Report)).value;
    if ch.event.Some? {
      EventAdded(s.log, ch.event.value);
    }
  }

  function StepsToHeld(stage: Stage): nat {
    match stage
    case BeforeSwap => 3
    case MustCreate => 2
    case Ready => 1
  }

  lemma {:induction false} SettleGranted(s: State, c: nat) returns (run: seq<Action>)
    requires c < |s.callers| && s.callers[c].pc.Granted?
    ensures SettledAt(s, c, run) && Runs.Execute(Step, s, run).value.callers[c].pc == Held
    decreases StepsToHeld(s.callers[c].pc.stage)
  {
    ReportGranted(s, c);
    var s' := Step(s, On(c, Report)).value;
    if s.callers[c].pc.stage == Ready {
      run := [On(c, Report)];
      assert Runs.Execute(Step, s, run) == Some(s');
    } else {
      var rest := SettleGranted(s', c);
      run := [On(c, Report)] + rest;
      assert run[1..] == rest;
    }
  }

  lemma SettleOne(s: State, c: nat) returns (run: seq<Action>)
    requires c < |s.callers|
    ensures SettledAt(s, c, run)
  {
    if s.callers[c].pc.Granted? {
      run := SettleGranted(s, c);
    } else if s.callers[c].pc == Returning {
      run := [On(c, GiveBack)];
      assert Runs.Execute(Step, s, run) == Step(s, On(c, GiveBack));
    } else {
      run := [];
    }
  }

  /** `run` settles the first `n` callers and changes no other. */
  ghost predicate SettlesFirst(s: State, n: nat, run: seq<Action>) {
    && (forall i :: 0 <= i < |run| ==> !run[i].AddPermits?)
    && Runs.Execute(Step, s, run).Some?
    && var end := Runs.Execute(Step, s, run).value;
       && |end.callers| == |s.callers| && n <= |s.callers|
       && (forall d :: 0 <= d < n ==> Settled(end.callers[d]))
       && LoggedAdds(end.log) == LoggedAdds(s.log)
  }

  lemma {:induction false} SettleFirst(s: State, n: nat) returns (run: seq<Action>)
    requires n <= |s.callers|
    ensures SettlesFirst(s, n, run)
    decreases n
  {
    if n == 0 {
      run := [];
    } else {
      var first := SettleFirst(s, n - 1);
      var s' := Runs.Execute(Step, s, first).value;
      var last := SettleOne(s', n - 1);
      run := first + last;
      Runs.Concatenated(Step, s, first, last);
    }
  }

  lemma {:induction false} SumSame(callers: seq<Caller>)
    requires forall c :: 0 <= c < |callers| ==> Settled(callers[c])
    ensures Sum(callers, RealSize) == Sum(callers, LoggedSize)
    decreases |callers|
  {
    if callers != [] {
      SumSame(callers[..|callers| - 1]);
    }
  }

  /** Takes every permit that is free and reports it. */
  lemma TakeTheRest(s: State) returns (run: seq<Action>)
    requires Fit(s) && forall c :: 0 <= c < |s.callers| ==> Settled(s.callers[c])
    ensures forall i :: 0 <= i < |run| ==> !run[i].AddPermits?
    ensures Runs.Execute(Step, s, run).Some?
    ensures var end := Runs.Execute(Step, s, run).value;
            && LoggedPermits(end.log) == s.lock.initial + s.added
            && LoggedAdds(end.log) == LoggedAdds(s.log)
  {
    var all := Permits(s.lock.initial + s.added - Sum(s.callers, RealSize));
    var n := |s.callers|;
    var taken := Step(s, TryAcquire(all)).value;
    var rest := SettleGranted(taken, n);
    run := [TryAcquire(all)] + rest;
    assert run[1..] == rest;
    var end := Runs.Execute(Step, s, run).value;
    FitRun(s, run);
    var held := Caller(all, Held);
    assert end.callers == s.callers + [held];
    assert (s.callers + [held])[..n] == s.callers;
    SumSame(s.callers);
  }

  lemma UnreportedExceeds(s: State) returns (run: seq<Action>)
    requires Fit(s) && Sum(s.callers, UnreportedSize) > 0
    ensures AddsNothing(s, run) && Exceeds(s, run)
  {
    var first := SettleFirst(s, |s.callers|);
    var s' := Runs.Execute(Step, s, first).value;
    FitRun(s, first);
    AddedStays(s, first);
    var last := TakeTheRest(s');
    run := first + last;
    Runs.Concatenated(Step, s, first, last);
  }

  /** The exact condition: in every reachable state, some run that neither adds permits nor
      reports an addition brings the log to show more permits out than it shows given iff an
      addition has yet to be reported. */
  lemma ExceedsIffUnreported(initial: nat, actions: seq<Action>)
    requires Reach(Semaphore(initial), actions).Some?
    ensures CanExceed(Reach(Semaphore(initial), actions).value) <==>
            Sum(Reach(Semaphore(initial), actions).value.callers, UnreportedSize) > 0
  {
    FitRun(Start(Semaphore(initial)), actions);
    var s := Reach(Semaphore(initial), actions).value;
    if Sum(s.callers, UnreportedSize) > 0 {
      var run := UnreportedExceeds(s);
    } else {
      forall run | AddsNothing(s, run)
        ensures !Exceeds(s, run)
      {
        AllReportedStaysWithin(s, run);
      }
    }
  }

  /** One permit added and all of them taken, neither reported. */
  function AddedAndTaken(initial: nat): State {
    State(Semaphore(initial), 1,
          [Caller(Add(1), Adding(BeforeSwap)), Caller(Permits(initial + 1), Granted(BeforeSwap))], false, [])
  }

  function JustAdded(initial: nat): State {
    State(Semaphore(initial), 1, [Caller(Add(1), Adding(BeforeSwap))], false, [])
  }

  lemma AddOne(initial: nat)
    ensures Step(Start(Semaphore(initial)), AddPermits(1)) == Some(JustAdded(initial))
  {
    assert Start(Semaphore(initial)).callers + JustAdded(initial).callers == JustAdded(initial).callers;
  }

  lemma TakeAll(initial: nat)
    ensures Step(JustAdded(initial), TryAcquire(Permits(initial + 1))) == Some(AddedAndTaken(initial))
  {
    var s, all := JustAdded(initial), Permits(initial + 1);
    assert s.callers[..0] == [] && Sum(s.callers, RealSize) == 0;
    assert CanServe(s, all);
    assert s.callers + [Caller(all, Granted(BeforeSwap))] == AddedAndTaken(initial).callers;
  }

  lemma AddAndTake(initial: nat)
    ensures Reach(Semaphore(initial), [AddPermits(1), TryAcquire(Permits(initial + 1))]) ==
            Some(AddedAndTaken(initial))
  {
    var all := Permits(initial + 1);
    AddOne(initial);
    TakeAll(initial);
    assert [AddPermits(1), TryAcquire(all)][1..] == [TryAcquire(all)];
    assert Runs.Execute(Step, JustAdded(initial), [TryAcquire(all)]) == Some(AddedAndTaken(initial));
  }

  lemma OneAcquisition(n: nat)
    ensures LoggedPermits([Acquired(1, Permits(n))]) == n && LoggedAdds([Acquired(1, Permits(n))]) == 0
  {
    assert [Acquired(1, Permits(n))][..0] == [];
  }

  /** Such a run: on any semaphore, one permit is added, all are taken, and the taking is
      reported first. */
  lemma AdditionReportedLate(initial: nat)
    ensures var all := Permits(initial + 1);
            var run := Reach(Semaphore(initial),
                             [AddPermits(1), TryAcquire(all)] + [On(0, Report), On(1, Report), On(1, Report)]);
            && run.Some? && run.value.log == [Acquired(1, all)]
            && LoggedPermits(run.value.log) == initial + 1
            && initial + LoggedAdds(run.value.log) == initial
  {
    var all, s := Permits(initial + 1), AddedAndTaken(initial);
    AddAndTake(initial);
    CreationReport.SwapAndOvertake(s, 0, 1);
    OneAcquisition(initial + 1);
    Runs.Concatenated(Step, Start(Semaphore(initial)), [AddPermits(1), TryAcquire(all)],
                      [On(0, Report), On(1, Report), On(1, Report)]);
  }

}
