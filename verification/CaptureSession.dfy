/** Event capture: sessions that take turns owning one process-wide sink, while any
    number of threads emit. No legacy sink is registered. */
module CaptureSession {

  import opened Options
  import Runs

  type Event(==,!new)

  /** `begin` waits for the capture lock, then installs its sender; `finish` clears the slot,
      joins the collector, and lets the lock go when the session is dropped. */
  datatype Phase = Beginning | Locked | Installed | Cleared | Joined | Over

  /** `queue` is the channel between emitters and the collector. `from` and `to` are the
      number of emissions before the install and before the teardown. */
  datatype Session = Session(phase: Phase, queue: seq<Event>, collected: seq<Event>, from: nat, to: nat)

  /** `lock` and `slot` name the session that holds the lock, and whose sender is installed.
      `emitted` is every emission, in the order the slot was taken for it. */
  datatype State = State(lock: Option<nat>, slot: Option<nat>, sessions: seq<Session>, emitted: seq<Event>)

  const START := State(None, None, [], [])

  datatype Action =
    | Begin                 // a thread calls `begin`
    | Lock(s: nat)          // and gets the capture lock,
    | Install(s: nat)       // and installs its sender
    | Emit(e: Event)
    | Collect(s: nat)       // the collector receives one event
    | Clear(s: nat)         // `tear_down` drops the sole sender
    | Join(s: nat)          // the collector saw the channel end
    | Unlock(s: nat)        // `finish` has returned

  predicate In(st: State, s: nat, phase: Phase) {
    s < |st.sessions| && st.sessions[s].phase == phase
  }

  function Put(st: State, s: nat, session: Session): State
    requires s < |st.sessions|
  {
    st.(sessions := st.sessions[s := session])
  }

  function Step(st: State, a: Action): Option<State> {
    match a
    case Begin => Some(st.(sessions := st.sessions + [Session(Beginning, [], [], 0, 0)]))
    case Lock(s) =>
      if In(st, s, Beginning) && st.lock == None
      then Some(Put(st, s, st.sessions[s].(phase := Locked)).(lock := Some(s))) else None
    case Install(s) =>
      if In(st, s, Locked)
      then Some(Put(st, s, st.sessions[s].(phase := Installed, from := |st.emitted|)).(slot := Some(s))) else None
    case Emit(e) =>
      var st' := st.(emitted := st.emitted + [e]);
      (match st.slot
       case None => Some(st')
       case Some(s) =>
         if s < |st.sessions| then Some(Put(st', s, st.sessions[s].(queue := st.sessions[s].queue + [e])))
         else None)
    case Collect(s) =>
      if (In(st, s, Installed) || In(st, s, Cleared)) && st.sessions[s].queue != []
      then
        var x := st.sessions[s];
        Some(Put(st, s, x.(queue := x.queue[1..], collected := x.collected + [x.queue[0]])))
      else None
    case Clear(s) =>
      if In(st, s, Installed)
      then Some(Put(st, s, st.sessions[s].(phase := Cleared, to := |st.emitted|)).(slot := None)) else None
    case Join(s) =>
      if In(st, s, Cleared) && st.sessions[s].queue == [] && st.slot != Some(s)
      then Some(Put(st, s, st.sessions[s].(phase := Joined))) else None
    case Unlock(s) =>
      if In(st, s, Joined) then Some(Put(st, s, st.sessions[s].(phase := Over)).(lock := None)) else None
  }

  function Reach(actions: seq<Action>): Option<State> {
    Runs.Execute(Step, START, actions)
  }

  /** What session `s` returns from `finish`, once its collector has been joined. */
  function Returned(st: State, s: nat): Option<seq<Event>> {
    if In(st, s, Joined) || In(st, s, Over) then Some(st.sessions[s].collected) else None
  }

  // ---------- invariants ----------

  predicate Owns(phase: Phase) {
    phase == Locked || phase == Installed || phase == Cleared || phase == Joined
  }

  predicate TornDown(phase: Phase) {
    phase == Cleared || phase == Joined || phase == Over
  }

  predicate Captures(x: Session, emitted: seq<Event>) {
    match x.phase
    case Beginning => x.queue == [] && x.collected == []
    case Locked => x.queue == [] && x.collected == []
    case Installed => x.from <= |emitted| && x.collected + x.queue == emitted[x.from..]
    case Cleared => x.from <= x.to <= |emitted| && x.collected + x.queue == emitted[x.from..x.to]
    case Joined => x.from <= x.to <= |emitted| && x.queue == [] && x.collected == emitted[x.from..x.to]
    case Over => x.from <= x.to <= |emitted| && x.queue == [] && x.collected == emitted[x.from..x.to]
  }

  ghost predicate Exclusive(st: State) {
    && (forall s: nat :: s < |st.sessions| ==> (Owns(st.sessions[s].phase) <==> st.lock == Some(s)))
    && (st.lock.Some? ==> st.lock.value < |st.sessions|)
    && (forall s: nat :: st.slot == Some(s) <==> In(st, s, Installed))
  }

  ghost predicate AllCapture(st: State) {
    forall s: nat :: s < |st.sessions| ==> Captures(st.sessions[s], st.emitted)
  }

  /** A session's window ends before any later-installed session's begins. */
  predicate Before(x: Session, y: Session) {
    TornDown(x.phase) && x.to <= y.from
  }

  predicate Opened(phase: Phase) {
    phase == Installed || TornDown(phase)
  }

  ghost predicate Disjoint(st: State) {
    forall s: nat, u: nat :: s < u < |st.sessions| && Opened(st.sessions[s].phase) && Opened(st.sessions[u].phase)
      ==> Before(st.sessions[s], st.sessions[u]) || Before(st.sessions[u], st.sessions[s])
  }

  ghost predicate Inv(st: State) {
    Exclusive(st) && AllCapture(st) && Disjoint(st)
  }

  lemma ExclusiveStep(st: State, a: Action)
    requires Exclusive(st) && Step(st, a).Some?
    ensures Exclusive(Step(st, a).value)
  {
  }

  lemma EmissionKeepsCapture(x: Session, emitted: seq<Event>, e: Event)
    requires Captures(x, emitted)
    ensures Captures(if x.phase == Installed then x.(queue := x.queue + [e]) else x, emitted + [e])
  {
    if x.phase == Installed {
      assert (emitted + [e])[x.from..] == emitted[x.from..] + [e];
    } else if TornDown(x.phase) {
      assert (emitted + [e])[x.from..x.to] == emitted[x.from..x.to];
    }
  }

  lemma CollectKeepsCapture(x: Session, emitted: seq<Event>)
    requires Captures(x, emitted) && x.queue != []
    ensures Captures(x.(queue := x.queue[1..], collected := x.collected + [x.queue[0]]), emitted)
  {
    assert x.collected + [x.queue[0]] + x.queue[1..] == x.collected + x.queue;
  }

  lemma CaptureStep(st: State, a: Action, s: nat)
    requires Exclusive(st) && Step(st, a).Some?
    requires s < |Step(st, a).value.sessions|
    requires s < |st.sessions| ==> Captures(st.sessions[s], st.emitted)
    ensures var st' := Step(st, a).value; Captures(st'.sessions[s], st'.emitted)
  {
    if s < |st.sessions| {
      var x := st.sessions[s];
      match a {
        case Emit(e) => EmissionKeepsCapture(x, st.emitted, e);
        case Collect(u) => if u == s { CollectKeepsCapture(x, st.emitted); }
        case Clear(u) => if u == s { assert st.emitted[x.from..] == st.emitted[x.from..|st.emitted|]; }
        case _ =>
      }
    }
  }

  /** How a step moves a session's window. */
  lemma WindowStep(st: State, a: Action, s: nat)
    requires Step(st, a).Some? && s < |st.sessions|
    ensures s < |Step(st, a).value.sessions|
    ensures var x, x' := st.sessions[s], Step(st, a).value.sessions[s];
            if a == Install(s) then x.phase == Locked && x'.phase == Installed && x'.from == |st.emitted|
            else if a == Clear(s) then
              && x.phase == Installed && x'.phase == Cleared
              && x'.from == x.from && x'.to == |st.emitted|
            else
              && x'.from == x.from && x'.to == x.to
              && Opened(x'.phase) == Opened(x.phase) && TornDown(x'.phase) == TornDown(x.phase)
  {
  }

  lemma NewSession(st: State, a: Action)
    requires Step(st, a).Some?
    ensures var st' := Step(st, a).value;
            |st'.sessions| > |st.sessions| ==>
              |st'.sessions| == |st.sessions| + 1 && !Opened(st'.sessions[|st.sessions|].phase)
  {
  }

  lemma DisjointPair(st: State, a: Action, s: nat, u: nat)
    requires Inv(st) && Step(st, a).Some? && s < u < |st.sessions|
    requires var st' := Step(st, a).value;
             u < |st'.sessions| && Opened(st'.sessions[s].phase) && Opened(st'.sessions[u].phase)
    ensures var st' := Step(st, a).value;
            Before(st'.sessions[s], st'.sessions[u]) || Before(st'.sessions[u], st'.sessions[s])
  {
    WindowStep(st, a, s);
    WindowStep(st, a, u);
    var x, y := st.sessions[s], st.sessions[u];
    // Two open windows would both hold the lock.
    assert !(Owns(x.phase) && Owns(y.phase));
    assert Captures(x, st.emitted) && Captures(y, st.emitted);
  }

  lemma DisjointStep(st: State, a: Action)
    requires Inv(st) && Step(st, a).Some?
    ensures Disjoint(Step(st, a).value)
  {
    var st' := Step(st, a).value;
    NewSession(st, a);
    forall s: nat, u: nat | s < u < |st'.sessions| && Opened(st'.sessions[s].phase) && Opened(st'.sessions[u].phase)
      ensures Before(st'.sessions[s], st'.sessions[u]) || Before(st'.sessions[u], st'.sessions[s])
    {
      DisjointPair(st, a, s, u);
    }
  }

  lemma StepKeepsInv(st: State, a: Action)
    requires Inv(st) && Step(st, a).Some?
    ensures Inv(Step(st, a).value)
  {
    ExclusiveStep(st, a);
    DisjointStep(st, a);
    forall s: nat | s < |Step(st, a).value.sessions|
      ensures Captures(Step(st, a).value.sessions[s], Step(st, a).value.emitted)
    {
      CaptureStep(st, a, s);
    }
  }

  lemma Reachable(actions: seq<Action>)
    requires Reach(actions).Some?
    ensures Inv(Reach(actions).value)
  {
    forall st, a | Inv(st) && Step(st, a).Some?
      ensures Inv(Step(st, a).value)
    {
      StepKeepsInv(st, a);
    }
    Runs.Preserved(Step, Inv, START, actions);
  }

  // ---------- what a session returns ----------

  /** A session's result is a slice of what was emitted. */
  lemma ReturnedIsSlice(actions: seq<Action>, s: nat)
    requires Reach(actions).Some? && Returned(Reach(actions).value, s).Some?
    ensures var st := Reach(actions).value; var x := st.sessions[s];
            x.from <= x.to <= |st.emitted| && Returned(st, s) == Some(st.emitted[x.from..x.to])
  {
    Reachable(actions);
    var st := Reach(actions).value;
    assert Captures(st.sessions[s], st.emitted);
  }

  /** No emission belongs to two sessions' results. */
  lemma NoEventInTwoSessions(actions: seq<Action>, s: nat, u: nat, i: nat)
    requires Reach(actions).Some? && s != u
    requires Returned(Reach(actions).value, s).Some? && Returned(Reach(actions).value, u).Some?
    requires var x := Reach(actions).value.sessions[s]; x.from <= i < x.to
    ensures var y := Reach(actions).value.sessions[u]; !(y.from <= i < y.to)
  {
    Reachable(actions);
    var st := Reach(actions).value;
    assert Opened(st.sessions[s].phase) && Opened(st.sessions[u].phase);
    if s < u {
      assert Before(st.sessions[s], st.sessions[u]) || Before(st.sessions[u], st.sessions[s]);
    } else {
      assert Before(st.sessions[u], st.sessions[s]) || Before(st.sessions[s], st.sessions[u]);
    }
  }

  /** Sessions are exclusive: two never have the lock or an installed sender together. */
  lemma OneSessionAtATime(actions: seq<Action>, s: nat, u: nat)
    requires Reach(actions).Some?
    requires var st := Reach(actions).value;
             s < |st.sessions| && u < |st.sessions| && Owns(st.sessions[s].phase) && Owns(st.sessions[u].phase)
    ensures s == u
  {
    Reachable(actions);
  }

  /** The collector's drain ends: once a session is torn down, receiving what is queued and
      then joining is possible without anyone else moving, whatever others did before. */
  lemma {:induction false} DrainEnds(st: State, s: nat) returns (rest: seq<Action>)
    requires Inv(st) && In(st, s, Cleared)
    ensures |rest| == |st.sessions[s].queue| + 1
    ensures var end := Runs.Execute(Step, st, rest);
            end.Some? && Returned(end.value, s) == Some(st.sessions[s].collected + st.sessions[s].queue)
    decreases |st.sessions[s].queue|
  {
    var x := st.sessions[s];
    if x.queue == [] {
      rest := [Join(s)];
      assert x.collected + x.queue == x.collected;
    } else {
      var st' := Step(st, Collect(s)).value;
      StepKeepsInv(st, Collect(s));
      var more := DrainEnds(st', s);
      rest := [Collect(s)] + more;
      assert rest[1..] == more;
      assert x.collected + [x.queue[0]] + x.queue[1..] == x.collected + x.queue;
    }
  }

  /** After teardown nothing more is queued for the session, so the drain cannot grow. */
  lemma TornDownQueueShrinks(st: State, a: Action, s: nat)
    requires Inv(st) && In(st, s, Cleared) && Step(st, a).Some?
    ensures var st' := Step(st, a).value;
            |st'.sessions[s].queue| <= |st.sessions[s].queue| && (In(st', s, Cleared) || In(st', s, Joined))
  {
  }

  // ---------- the same, read off the actions ----------

  /** The events emitted, in order. */
  function Emissions(actions: seq<Action>): seq<Event> {
    if actions == [] then []
    else
      var last := actions[|actions| - 1];
      Emissions(actions[..|actions| - 1]) + if last.Emit? then [last.e] else []
  }

  lemma {:induction false} EmissionsConcat(a: seq<Action>, b: seq<Action>)
    ensures Emissions(a + b) == Emissions(a) + Emissions(b)
    decreases |b|
  {
    if b == [] {
      assert a + b == a;
    } else {
      var n := |b| - 1;
      assert (a + b)[..|a| + n] == a + b[..n];
      EmissionsConcat(a, b[..n]);
    }
  }

  lemma {:induction false} EmittedIsEmissions(actions: seq<Action>)
    requires Reach(actions).Some?
    ensures Reach(actions).value.emitted == Emissions(actions)
    decreases |actions|
  {
    if actions != [] {
      Runs.LastStep(Step, START, actions);
      EmittedIsEmissions(actions[..|actions| - 1]);
    }
  }

  predicate Opens(actions: seq<Action>, s: nat, i: int) {
    0 <= i < |actions| && actions[i] == Install(s)
  }

  predicate Closes(actions: seq<Action>, s: nat, j: int) {
    0 <= j < |actions| && actions[j] == Clear(s)
  }

  /** A session's window starts at its one `Install` and ends at its one `Clear`. */
  ghost predicate WindowMatches(actions: seq<Action>, st: State, s: nat) {
    && (forall i :: Opens(actions, s, i) ==>
          s < |st.sessions| && Opened(st.sessions[s].phase) && st.sessions[s].from == |Emissions(actions[..i])|)
    && (forall j :: Closes(actions, s, j) ==>
          s < |st.sessions| && TornDown(st.sessions[s].phase) && st.sessions[s].to == |Emissions(actions[..j])|)
    && (s < |st.sessions| && Opened(st.sessions[s].phase) ==> exists i :: Opens(actions, s, i))
    && (s < |st.sessions| && TornDown(st.sessions[s].phase) ==> exists j :: Closes(actions, s, j))
  }

  lemma PrefixOpens(actions: seq<Action>, s: nat)
    requires actions != []
    ensures var n := |actions| - 1;
            && (forall i :: Opens(actions, s, i) <==> Opens(actions[..n], s, i) || (i == n && actions[n] == Install(s)))
            && (forall j :: Closes(actions, s, j) <==> Closes(actions[..n], s, j) || (j == n && actions[n] == Clear(s)))
            && (forall i :: 0 <= i < n ==> actions[..n][..i] == actions[..i])
  {
  }

  /** No session is new to a step that names it, except the one just begun. */
  lemma SessionStep(st: State, a: Action, s: nat)
    requires Step(st, a).Some?
    ensures s >= |st.sessions| ==> a != Install(s) && a != Clear(s)
    ensures s >= |st.sessions| && s < |Step(st, a).value.sessions| ==> !Opened(Step(st, a).value.sessions[s].phase)
  {
  }

  lemma {:induction false} WindowsMatch(actions: seq<Action>, s: nat)
    requires Reach(actions).Some?
    ensures WindowMatches(actions, Reach(actions).value, s)
    decreases |actions|
  {
    if actions != [] {
      var n := |actions| - 1;
      Runs.LastStep(Step, START, actions);
      WindowsMatch(actions[..n], s);
      WindowMatchStep(actions, s);
    }
  }

  lemma WindowMatchStep(actions: seq<Action>, s: nat)
    requires actions != [] && Reach(actions).Some?
    requires var n := |actions| - 1;
             && Reach(actions[..n]).Some? && Step(Reach(actions[..n]).value, actions[n]) == Reach(actions)
             && WindowMatches(actions[..n], Reach(actions[..n]).value, s)
    ensures WindowMatches(actions, Reach(actions).value, s)
  {
    var n := |actions| - 1;
    var st, a := Reach(actions[..n]).value, actions[n];
    EmittedIsEmissions(actions[..n]);
    PrefixOpens(actions, s);
    SessionStep(st, a, s);
    if s < |st.sessions| {
      WindowStep(st, a, s);
      if Opened(Reach(actions).value.sessions[s].phase) && !Opened(st.sessions[s].phase) {
        assert Opens(actions, s, n);
      }
      if TornDown(Reach(actions).value.sessions[s].phase) && !TornDown(st.sessions[s].phase) {
        assert Closes(actions, s, n);
      }
    }
  }

  lemma EmissionsBetween(actions: seq<Action>, i: int, j: int)
    requires 0 <= i < j <= |actions| && !actions[i].Emit?
    ensures |Emissions(actions[..i])| <= |Emissions(actions[..j])| <= |Emissions(actions)|
    ensures Emissions(actions)[|Emissions(actions[..i])|..|Emissions(actions[..j])|] == Emissions(actions[i + 1..j])
  {
    assert actions[..j] == actions[..i] + [actions[i]] + actions[i + 1..j];
    assert actions == actions[..j] + actions[j..];
    EmissionsConcat(actions[..i], [actions[i]]);
    EmissionsConcat(actions[..i] + [actions[i]], actions[i + 1..j]);
    EmissionsConcat(actions[..j], actions[j..]);
    assert [actions[i]][..0] == [] && Emissions([actions[i]]) == [];
  }

  /** A session is installed once, cleared once, and in that order. */
  lemma {:induction false} OpensOnce(actions: seq<Action>, s: nat, i: int, k: int)
    requires Reach(actions).Some? && Opens(actions, s, i) && Opens(actions, s, k)
    ensures i == k
    decreases |actions|
  {
    var n := |actions| - 1;
    Runs.LastStep(Step, START, actions);
    WindowsMatch(actions[..n], s);
    PrefixOpens(actions, s);
    if i < n && k < n {
      OpensOnce(actions[..n], s, i, k);
    }
  }

  lemma {:induction false} ClosesOnce(actions: seq<Action>, s: nat, j: int, k: int)
    requires Reach(actions).Some? && Closes(actions, s, j) && Closes(actions, s, k)
    ensures j == k
    decreases |actions|
  {
    var n := |actions| - 1;
    Runs.LastStep(Step, START, actions);
    WindowsMatch(actions[..n], s);
    PrefixOpens(actions, s);
    if j < n && k < n {
      ClosesOnce(actions[..n], s, j, k);
    }
  }

  lemma {:induction false} OpensBeforeCloses(actions: seq<Action>, s: nat, i: int, j: int)
    requires Reach(actions).Some? && Opens(actions, s, i) && Closes(actions, s, j)
    ensures i < j
    decreases |actions|
  {
    var n := |actions| - 1;
    Runs.LastStep(Step, START, actions);
    WindowsMatch(actions[..n], s);
    PrefixOpens(actions, s);
    if i < n && j < n {
      OpensBeforeCloses(actions[..n], s, i, j);
    }
  }

  /** `finish` returns exactly the events emitted after its session's one `Install` and before
      its one `Clear`, in order. */
  lemma FinishReturnsItsWindow(actions: seq<Action>, s: nat)
    requires Reach(actions).Some? && Returned(Reach(actions).value, s).Some?
    ensures exists i, j ::
              && Opens(actions, s, i) && (forall k :: Opens(actions, s, k) ==> k == i)
              && Closes(actions, s, j) && (forall k :: Closes(actions, s, k) ==> k == j)
              && i < j && Returned(Reach(actions).value, s) == Some(Emissions(actions[i + 1..j]))
  {
    var st := Reach(actions).value;
    Reachable(actions);
    EmittedIsEmissions(actions);
    WindowsMatch(actions, s);
    assert Captures(st.sessions[s], st.emitted);
    var i :| Opens(actions, s, i);
    var j :| Closes(actions, s, j);
    forall k | Opens(actions, s, k)
      ensures k == i
    {
      OpensOnce(actions, s, i, k);
    }
    forall k | Closes(actions, s, k)
      ensures k == j
    {
      ClosesOnce(actions, s, j, k);
    }
    OpensBeforeCloses(actions, s, i, j);
    EmissionsBetween(actions, i, j);
  }

  // ---------- a session can be run ----------

  function EmitAll(events: seq<Event>): seq<Action> {
    seq(|events|, i requires 0 <= i < |events| => Emit(events[i]))
  }

  lemma {:induction false} EmitsAreQueued(st: State, s: nat, events: seq<Event>)
    requires Inv(st) && In(st, s, Installed)
    ensures var end := Runs.Execute(Step, st, EmitAll(events));
            && end.Some? && Inv(end.value) && In(end.value, s, Installed) && |end.value.sessions| == |st.sessions|
            && end.value.sessions[s].queue == st.sessions[s].queue + events
            && end.value.sessions[s].collected == st.sessions[s].collected
    decreases |events|
  {
    if events == [] {
      assert st.sessions[s].queue + events == st.sessions[s].queue;
    } else {
      var a := Emit(events[0]);
      assert st.slot == Some(s);
      StepKeepsInv(st, a);
      var st' := Step(st, a).value;
      EmitsAreQueued(st', s, events[1..]);
      assert EmitAll(events)[1..] == EmitAll(events[1..]);
      assert st.sessions[s].queue + [events[0]] + events[1..] == st.sessions[s].queue + events;
    }
  }

  lemma SessionOpens(st: State) returns (st': State)
    requires Inv(st) && st.lock == None
    ensures var s := |st.sessions|;
            && Runs.Execute(Step, st, [Begin, Lock(s), Install(s)]) == Some(st')
            && Inv(st') && In(st', s, Installed) && |st'.sessions| == s + 1
            && st'.sessions[s].queue == [] && st'.sessions[s].collected == []
  {
    var s := |st.sessions|;
    var st1 := Step(st, Begin).value;
    StepKeepsInv(st, Begin);
    var st2 := Step(st1, Lock(s)).value;
    StepKeepsInv(st1, Lock(s));
    st' := Step(st2, Install(s)).value;
    StepKeepsInv(st2, Install(s));
    assert [Begin, Lock(s), Install(s)][1..] == [Lock(s), Install(s)] && [Lock(s), Install(s)][1..] == [Install(s)];
    assert Runs.Execute(Step, st2, [Install(s)]) == Some(st');
    assert Runs.Execute(Step, st1, [Lock(s), Install(s)]) == Some(st');
  }

  /** Whenever nobody holds the capture lock, a new session can be run for any events: it
      returns them all, in order. */
  lemma WholeSession(st: State, events: seq<Event>) returns (run: seq<Action>)
    requires Inv(st) && st.lock == None
    ensures var end := Runs.Execute(Step, st, run);
            end.Some? && Returned(end.value, |st.sessions|) == Some(events)
  {
    var s := |st.sessions|;
    var begun := SessionOpens(st);
    EmitsAreQueued(begun, s, events);
    var full := Runs.Execute(Step, begun, EmitAll(events)).value;
    var cleared := Step(full, Clear(s)).value;
    StepKeepsInv(full, Clear(s));
    var drain := DrainEnds(cleared, s);
    var opening, closing := [Begin, Lock(s), Install(s)], [Clear(s)] + drain;
    assert closing[1..] == drain;
    run := opening + (EmitAll(events) + closing);
    Runs.Concatenated(Step, st, opening, EmitAll(events) + closing);
    Runs.Concatenated(Step, begun, EmitAll(events), closing);
    assert [] + events == events;
  }

  /** And when it has returned, the lock can be let go for the next one. */
  lemma UnlockFrees(st: State, s: nat)
    requires Inv(st) && In(st, s, Joined)
    ensures Step(st, Unlock(s)).Some? && Step(st, Unlock(s)).value.lock == None
    ensures Returned(Step(st, Unlock(s)).value, s) == Returned(st, s)
  {
  }

}
