/** The semaphore's creation report: made once, by whichever call first swaps a flag, and ahead
    of every other report unless two calls are in a report at once. */
module CreationReport {

  import opened Options
  import opened LockSeam
  import Runs

  function EventCreates(e: Event): nat {
    if e.Created? then 1 else 0
  }

  function Creations(log: seq<Event>): nat {
    if log == [] then 0 else Creations(log[..|log| - 1]) + EventCreates(log[|log| - 1])
  }

  /** This caller swapped the flag and still has to report the creation. */
  function OwesCreation(c: Caller): nat {
    if Reporting(c.pc) && c.pc.stage == MustCreate then 1 else 0
  }

  /** The flag is set once, and whoever set it reports the creation once. */
  ghost predicate CreationCounted(s: State) {
    Creations(s.log) + Sum(s.callers, OwesCreation) == if s.createdReported then 1 else 0
  }

  lemma CreationShape(s: State, a: Action)
    requires ChangeOf(s, a).Some?
    ensures var ch := ChangeOf(s, a).value;
            var owed := if ch.c < |s.callers| then OwesCreation(s.callers[ch.c]) else 0;
            && ch.c <= |s.callers|
            && (if ch.event.Some? then EventCreates(ch.event.value) else 0) + OwesCreation(ch.caller) ==
               (if ch.swaps && !s.createdReported then 1 else 0) + owed
  {
  }

  lemma CreationStep(s: State, a: Action)
    requires CreationCounted(s) && Step(s, a).Some?
    ensures CreationCounted(Step(s, a).value)
  {
    var ch := ChangeOf(s, a).value;
    CreationShape(s, a);
    SumChange(s, ch, OwesCreation);
    if ch.event.Some? {
      assert (s.log + [ch.event.value])[..|s.log|] == s.log;
    }
  }

  /** However the calls race, the creation is reported at most once, and exactly once as
      soon as the flag is set and no report of it is in flight. */
  lemma CreatedOnce(initial: nat, actions: seq<Action>)
    requires Reach(Semaphore(initial), actions).Some?
    ensures var s := Reach(Semaphore(initial), actions).value;
            && Creations(s.log) <= 1
            && (s.createdReported && Sum(s.callers, OwesCreation) == 0 ==> Creations(s.log) == 1)
  {
    forall s, a | CreationCounted(s) && Step(s, a).Some?
      ensures CreationCounted(Step(s, a).value)
    {
      CreationStep(s, a);
    }
    Runs.Preserved(Step, CreationCounted, Start(Semaphore(initial)), actions);
  }

  // ---------- when it comes first ----------

  predicate Silent(pc: Pc) {
    pc == Fresh || pc == Gone || Reporting(pc)
  }

  /** Nothing is logged by a caller past its first report, and nothing at all before the flag. */
  ghost predicate SilentFits(s: State) {
    && s.lock.Semaphore? && CreationCounted(s)
    && (s.log == [] ==> forall c :: 0 <= c < |s.callers| ==> Silent(s.callers[c].pc))
    && (!s.createdReported ==> s.log == [] && forall c :: 0 <= c < |s.callers| ==> NotPastSwap(s.callers[c].pc))
  }

  predicate NotPastSwap(pc: Pc) {
    Reporting(pc) ==> pc.stage == BeforeSwap
  }

  lemma SilentShape(s: State, a: Action)
    requires s.lock.Semaphore? && ChangeOf(s, a).Some?
    requires a.On? && s.log == [] ==> Silent(s.callers[a.c].pc)
    requires a.On? && !s.createdReported ==> NotPastSwap(s.callers[a.c].pc) && Silent(s.callers[a.c].pc)
    ensures var ch := ChangeOf(s, a).value;
            && (s.log == [] && ch.event.None? ==> Silent(ch.caller.pc))
            && (!s.createdReported ==> ch.event.None? && (!ch.swaps ==> NotPastSwap(ch.caller.pc)))
  {
  }

  lemma SilentStep(s: State, a: Action)
    requires SilentFits(s) && Step(s, a).Some?
    ensures SilentFits(Step(s, a).value)
  {
    CreationStep(s, a);
    SilentShape(s, a);
  }

  lemma SilentReached(initial: nat, actions: seq<Action>)
    requires Reach(Semaphore(initial), actions).Some?
    ensures SilentFits(Reach(Semaphore(initial), actions).value)
  {
    forall s, a | SilentFits(s) && Step(s, a).Some?
      ensures SilentFits(Step(s, a).value)
    {
      SilentStep(s, a);
    }
    Runs.Preserved(Step, SilentFits, Start(Semaphore(initial)), actions);
  }

  /** At most one report is in progress: calls do not overlap. */
  ghost predicate Solo(s: State) {
    forall c, d :: 0 <= c < d < |s.callers| ==> !(Reporting(s.callers[c].pc) && Reporting(s.callers[d].pc))
  }

  lemma {:induction false} SomeoneOwes(callers: seq<Caller>) returns (c: nat)
    requires Sum(callers, OwesCreation) > 0
    ensures c < |callers| && OwesCreation(callers[c]) == 1
    decreases |callers|
  {
    var n := |callers| - 1;
    if OwesCreation(callers[n]) == 1 {
      c := n;
    } else {
      c := SomeoneOwes(callers[..n]);
    }
  }

  /** While reports do not overlap, the first event can only be the creation. */
  lemma FirstEvent(s: State, a: Action)
    requires SilentFits(s) && Solo(s) && s.log == [] && Step(s, a).Some?
    ensures var log := Step(s, a).value.log; log != [] ==> log[0].Created?
  {
    SilentShape(s, a);
    if a.On? && Reporting(s.callers[a.c].pc) && s.callers[a.c].pc.stage == Ready {
      assert !NotPastSwap(s.callers[a.c].pc);
      var d := SomeoneOwes(s.callers);
      assert false;
    }
  }

  ghost predicate CreationFirst(s: State) {
    SilentFits(s) && Solo(s) && (s.log != [] ==> s.log[0].Created?)
  }

  /** Steps of runs whose calls do not overlap. */
  ghost function SoloStep(s: State, a: Action): Option<State> {
    if Step(s, a).Some? && Solo(Step(s, a).value) then Step(s, a) else None
  }

  lemma CreationFirstStep(s: State, a: Action)
    requires CreationFirst(s) && SoloStep(s, a).Some?
    ensures CreationFirst(SoloStep(s, a).value)
  {
    SilentStep(s, a);
    if s.log == [] {
      FirstEvent(s, a);
    }
  }

  /** When calls do not overlap, the creation is the first thing reported. */
  lemma CreatedFirst(initial: nat, actions: seq<Action>)
    requires Runs.Execute(SoloStep, Start(Semaphore(initial)), actions).Some?
    ensures var log := Runs.Execute(SoloStep, Start(Semaphore(initial)), actions).value.log;
            log != [] ==> log[0].Created?
  {
    forall s, a | CreationFirst(s) && SoloStep(s, a).Some?
      ensures CreationFirst(SoloStep(s, a).value)
    {
      CreationFirstStep(s, a);
    }
    Runs.Preserved(SoloStep, CreationFirst, Start(Semaphore(initial)), actions);
  }

  // ---------- exactly when it can be overtaken ----------

  /** Only reports already begun go on. */
  predicate OnlyReports(run: seq<Action>) {
    forall i :: 0 <= i < |run| ==> run[i].On? && run[i].move == Report
  }

  /** Some way of finishing the reports under way logs another event ahead of the creation. */
  ghost predicate CanBeOvertaken(s: State) {
    exists run :: OnlyReports(run) && Overtakes(s, run)
  }

  ghost predicate Overtakes(s: State, run: seq<Action>) {
    var end := Runs.Execute(Step, s, run);
    end.Some? && end.value.log != [] && !end.value.log[0].Created?
  }

  lemma ReportKeepsSolo(s: State, c: nat)
    requires Solo(s) && Step(s, On(c, Report)).Some?
    ensures Solo(Step(s, On(c, Report)).value)
  {
  }

  lemma {:induction false} SoloIsNotOvertaken(s: State, run: seq<Action>)
    requires CreationFirst(s) && OnlyReports(run)
    ensures !Overtakes(s, run)
    decreases |run|
  {
    if run != [] && Step(s, run[0]).Some? {
      assert run[0] == On(run[0].c, Report);
      ReportKeepsSolo(s, run[0].c);
      CreationFirstStep(s, run[0]);
      SoloIsNotOvertaken(Step(s, run[0]).value, run[1..]);
    }
  }

  /** What a caller's report is for. */
  function Boundary(c: nat, caller: Caller): Event
    requires Reporting(caller.pc)
  {
    match caller.pc
    case Requesting(_) => Requested(c, caller.kind)
    case Granted(_) => Acquired(c, caller.kind)
    case Adding(_) => PermitsAdded(if caller.kind.Add? then caller.kind.n else 0)
  }

  ghost predicate AtReport(s: State, c: nat, stage: Stage) {
    c < |s.callers| && Reporting(s.callers[c].pc) && s.callers[c].pc.stage == stage
  }

  /** Past the swap, the next report step logs the boundary; */
  lemma ReadyLogs(s: State, c: nat)
    requires AtReport(s, c, Ready)
    ensures var s' := Step(s, On(c, Report));
            s'.Some? && s'.value.log == s.log + [Boundary(c, s.callers[c])]
  {
  }

  /** before it, with the flag already set, there is one step more. */
  lemma SwapThenLogs(s: State, c: nat)
    requires s.createdReported && AtReport(s, c, BeforeSwap)
    ensures var end := Runs.Execute(Step, s, [On(c, Report), On(c, Report)]);
            end.Some? && end.value.log == s.log + [Boundary(c, s.callers[c])]
  {
    var s' := Step(s, On(c, Report)).value;
    assert AtReport(s', c, Ready) && Boundary(c, s'.callers[c]) == Boundary(c, s.callers[c]);
    ReadyLogs(s', c);
    var run := [On(c, Report), On(c, Report)];
    assert run[1..] == [On(c, Report)];
    assert Runs.Execute(Step, s', [On(c, Report)]) == Step(s', On(c, Report));
  }

  /** With the flag still clear, one caller swaps it and the other reports past it. */
  lemma SwapAndOvertake(s: State, c: nat, d: nat)
    requires !s.createdReported && c != d && AtReport(s, c, BeforeSwap) && AtReport(s, d, BeforeSwap)
    ensures var end := Runs.Execute(Step, s, [On(c, Report), On(d, Report), On(d, Report)]);
            end.Some? && end.value.log == s.log + [Boundary(d, s.callers[d])]
  {
    var s' := Step(s, On(c, Report)).value;
    assert AtReport(s', d, BeforeSwap) && s'.callers[d] == s.callers[d] && s'.log == s.log;
    SwapThenLogs(s', d);
    var run := [On(c, Report), On(d, Report), On(d, Report)];
    assert run[1..] == [On(d, Report), On(d, Report)];
  }

  /** Only one caller owes the creation. */
  lemma OneOwes(s: State, c: nat, d: nat)
    requires CreationCounted(s) && c != d && AtReport(s, c, MustCreate) && d < |s.callers|
    ensures !AtReport(s, d, MustCreate)
  {
    var gone := Caller(RwRead, Gone);
    var callers := s.callers[c := gone];
    SumUpdate(s.callers, c, gone, OwesCreation);
    SumUpdate(callers, d, gone, OwesCreation);
  }

  lemma OtherReporter(s: State, c: nat, d: nat) returns (e: nat)
    requires SilentFits(s) && s.log == [] && s.createdReported && c != d
    requires c < |s.callers| && Reporting(s.callers[c].pc) && d < |s.callers| && Reporting(s.callers[d].pc)
    ensures AtReport(s, e, BeforeSwap) || AtReport(s, e, Ready)
  {
    if AtReport(s, c, MustCreate) {
      OneOwes(s, c, d);
      e := d;
    } else {
      e := c;
    }
  }

  lemma OverlapOvertakes(s: State, c: nat, d: nat) returns (run: seq<Action>)
    requires SilentFits(s) && s.log == [] && c != d
    requires c < |s.callers| && Reporting(s.callers[c].pc) && d < |s.callers| && Reporting(s.callers[d].pc)
    ensures |run| <= 3 && OnlyReports(run) && Overtakes(s, run)
  {
    if !s.createdReported {
      assert NotPastSwap(s.callers[c].pc) && NotPastSwap(s.callers[d].pc);
      SwapAndOvertake(s, c, d);
      run := [On(c, Report), On(d, Report), On(d, Report)];
    } else {
      var e := OtherReporter(s, c, d);
      if AtReport(s, e, BeforeSwap) {
        SwapThenLogs(s, e);
        run := [On(e, Report), On(e, Report)];
      } else {
        ReadyLogs(s, e);
        run := [On(e, Report)];
        assert Runs.Execute(Step, s, run) == Step(s, On(e, Report));
      }
    }
  }

  /** The exact condition: with nothing logged yet, the reports under way can put another event
      ahead of the creation iff two callers are in a report. */
  lemma OvertakenIffOverlapping(initial: nat, actions: seq<Action>)
    requires Reach(Semaphore(initial), actions).Some? && Reach(Semaphore(initial), actions).value.log == []
    ensures CanBeOvertaken(Reach(Semaphore(initial), actions).value) <==>
            !Solo(Reach(Semaphore(initial), actions).value)
  {
    SilentReached(initial, actions);
    var s := Reach(Semaphore(initial), actions).value;
    if Solo(s) {
      forall run | OnlyReports(run)
        ensures !Overtakes(s, run)
      {
        SoloIsNotOvertaken(s, run);
      }
    } else {
      var c, d :| 0 <= c < d < |s.callers| && Reporting(s.callers[c].pc) && Reporting(s.callers[d].pc);
      var run := OverlapOvertakes(s, c, d);
    }
  }

  // ---------- a run ----------

  /** Two permits taken, neither reported. */
  function TwoTaken(initial: nat): State {
    var taken := Caller(Permits(1), Granted(BeforeSwap));
    State(Semaphore(initial), 0, [taken, taken], false, [])
  }

  lemma TakeTwo(initial: nat)
    requires initial >= 2
    ensures Reach(Semaphore(initial), [TryAcquire(Permits(1)), TryAcquire(Permits(1))]) == Some(TwoTaken(initial))
  {
    var one, taken := TryAcquire(Permits(1)), Caller(Permits(1), Granted(BeforeSwap));
    var s0, s2 := Start(Semaphore(initial)), TwoTaken(initial);
    var s1 := State(Semaphore(initial), 0, [taken], false, []);
    assert s0.callers + [taken] == s1.callers && s1.callers + [taken] == s2.callers;
    assert s1.callers[..0] == [] && Sum(s1.callers, RealSize) == 1;
    assert Step(s0, one) == Some(s1) && Step(s1, one) == Some(s2);
    assert [one, one][1..] == [one] && Runs.Execute(Step, s1, [one]) == Some(s2);
  }

  /** On any semaphore with two permits, two overlapping calls can report an acquisition first:
      one swaps the flag, the other reports before the first has reported the creation. */
  lemma OverlappingCallsReportLate(initial: nat)
    requires initial >= 2
    ensures var one := TryAcquire(Permits(1));
            var run := Reach(Semaphore(initial), [one, one] + [On(0, Report), On(1, Report), On(1, Report)]);
            run.Some? && run.value.log == [Acquired(1, Permits(1))]
  {
    var one, s := TryAcquire(Permits(1)), TwoTaken(initial);
    TakeTwo(initial);
    SwapAndOvertake(s, 0, 1);
    Runs.Concatenated(Step, Start(Semaphore(initial)), [one, one], [On(0, Report), On(1, Report), On(1, Report)]);
  }

}
