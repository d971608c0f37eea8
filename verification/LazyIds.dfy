/** Resource ids: a fail-closed counter, and cells that take an id from it on first use. */
module LazyIds {

  import opened Options
  import opened Words
  import Runs

  // ---------- one caller at a time ----------

  /** `fetch_update(checked_add(1))`: hands out the old value, or nothing once exhausted. */
  class IdCounter {
    var next: nat

    constructor ()
      ensures next == 1
    {
      next := 1;
    }

    method Next() returns (id: Option<nat>)
      modifies this
      ensures old(next) < U64_MAX ==> id == Some(old(next)) && next == old(next) + 1
      ensures old(next) >= U64_MAX ==> id == None && next == old(next)
    {
      var bumped := CheckedIncrement(next);
      if bumped.None? {
        return None;
      }
      id := Some(next);
      next := bumped.value;
    }
  }

  /** An id assigned at most once; 0 means unassigned. */
  class AsyncResourceId {
    var id: nat

    constructor Lazy()
      ensures id == 0
    {
      id := 0;
    }

    method CompareExchange(expected: nat, desired: nat) returns (previous: nat)
      modifies this
      ensures previous == old(id)
      ensures id == if old(id) == expected then desired else old(id)
    {
      previous := id;
      if id == expected {
        id := desired;
      }
    }

    /** With nobody else running, `get` keeps an assigned id and otherwise takes the counter's next. */
    method Get(counter: IdCounter) returns (result: Option<nat>)
      requires counter.next >= 1
      modifies this, counter
      ensures old(id) != 0 ==> result == Some(old(id)) && id == old(id) && counter.next == old(counter.next)
      ensures old(id) == 0 && result.Some? ==> result == Some(id) && id == old(counter.next) && counter.next == id + 1
      ensures old(id) == 0 && result.None? ==> id == 0 && counter.next == old(counter.next) >= U64_MAX
    {
      if id != 0 {
        return Some(id);
      }
      var taken := counter.Next();
      if taken.None? {
        return None;
      }
      var previous := CompareExchange(0, taken.value);
      return if previous == 0 then taken else Some(previous);
    }
  }

  // ---------- any number of threads on any number of cells ----------

  /** Inside `get`: the load saw 0, or an id has been allocated and awaits the exchange. */
  datatype Pc = Missed(cell: nat) | Claiming(cell: nat, id: nat)

  datatype Return = Return(cell: nat, id: nat)

  /** `other` lists the ids handed to callers that allocate without a cell. */
  datatype State = State(next: nat, cells: seq<nat>, threads: map<nat, Pc>, returned: seq<Return>, other: seq<nat>)

  const START := State(1, [], map[], [], [])

  datatype Action =
    | NewLazy
    | NewEager
    | AllocateOther
    | Load(thread: nat, cell: nat)
    | Allocate(thread: nat)
    | Exchange(thread: nat)

  function Without(threads: map<nat, Pc>, t: nat): map<nat, Pc> {
    map u | u in threads && u != t :: threads[u]
  }

  /** One atomic access. An exhausted counter makes the caller panic: it leaves without a result. */
  function Step(s: State, a: Action): Option<State> {
    match a
    case NewLazy => Some(s.(cells := s.cells + [0]))
    case NewEager =>
      (match CheckedIncrement(s.next)
       case None => Some(s)
       case Some(n) => Some(s.(next := n, cells := s.cells + [s.next])))
    case AllocateOther =>
      (match CheckedIncrement(s.next)
       case None => Some(s)
       case Some(n) => Some(s.(next := n, other := s.other + [s.next])))
    case Load(t, c) =>
      if t in s.threads || c >= |s.cells| then None
      else if s.cells[c] != 0 then Some(s.(returned := s.returned + [Return(c, s.cells[c])]))
      else Some(s.(threads := s.threads[t := Missed(c)]))
    case Allocate(t) =>
      if t !in s.threads || !s.threads[t].Missed? then None
      else
        (match CheckedIncrement(s.next)
         case None => Some(s.(threads := Without(s.threads, t)))
         case Some(n) => Some(s.(next := n, threads := s.threads[t := Claiming(s.threads[t].cell, s.next)])))
    case Exchange(t) =>
      if t !in s.threads || !s.threads[t].Claiming? || s.threads[t].cell >= |s.cells| then None
      else
        var Claiming(c, id) := s.threads[t];
        var cells := if s.cells[c] == 0 then s.cells[c := id] else s.cells;
        Some(s.(cells := cells, threads := Without(s.threads, t), returned := s.returned + [Return(c, cells[c])]))
  }

  function Reach(actions: seq<Action>): Option<State> {
    Runs.Execute(Step, START, actions)
  }

  /** An id nobody has yet put in a cell or given out. */
  ghost predicate Unused(s: State, id: nat) {
    (forall c :: 0 <= c < |s.cells| ==> s.cells[c] != id) && (forall i :: 0 <= i < |s.other| ==> s.other[i] != id)
  }

  ghost predicate CellsDistinct(s: State) {
    && (forall c :: 0 <= c < |s.cells| ==> s.cells[c] < s.next)
    && (forall c, d :: 0 <= c < d < |s.cells| && s.cells[c] != 0 ==> s.cells[c] != s.cells[d])
  }

  ghost predicate OthersDistinct(s: State) {
    && (forall i :: 0 <= i < |s.other| ==> 0 < s.other[i] < s.next)
    && (forall i, c :: 0 <= i < |s.other| && 0 <= c < |s.cells| ==> s.other[i] != s.cells[c])
    && (forall i, j :: 0 <= i < j < |s.other| ==> s.other[i] != s.other[j])
  }

  ghost predicate Claims(s: State, t: nat, id: nat) {
    t in s.threads && s.threads[t].Claiming? && s.threads[t].id == id
  }

  ghost predicate ThreadsInRange(s: State) {
    forall t :: t in s.threads ==> s.threads[t].cell < |s.cells|
  }

  ghost predicate ClaimsUnused(s: State) {
    forall t: nat, id: nat :: Claims(s, t, id) ==> 0 < id < s.next && Unused(s, id)
  }

  ghost predicate ClaimsDistinct(s: State) {
    forall t: nat, u: nat, id: nat :: Claims(s, t, id) && Claims(s, u, id) ==> t == u
  }

  ghost predicate ReturnsMatchCells(s: State) {
    forall i :: 0 <= i < |s.returned| ==>
      var r := s.returned[i]; r.cell < |s.cells| && r.id != 0 && r.id == s.cells[r.cell]
  }

  ghost predicate Inv(s: State) {
    && 1 <= s.next <= U64_MAX
    && CellsDistinct(s) && OthersDistinct(s) && ThreadsInRange(s)
    && ClaimsUnused(s) && ClaimsDistinct(s) && ReturnsMatchCells(s)
  }

  lemma StepKeepsInv(s: State, a: Action)
    requires Inv(s) && Step(s, a).Some?
    ensures Inv(Step(s, a).value)
  {
    StepKeepsCells(s, a);
    StepKeepsOthers(s, a);
    StepKeepsReturns(s, a);
    StepKeepsClaims(s, a);
  }

  lemma StepKeepsCells(s: State, a: Action)
    requires Inv(s) && Step(s, a).Some?
    ensures CellsDistinct(Step(s, a).value)
  {
    if a.Exchange? {
      assert Claims(s, a.thread, s.threads[a.thread].id);
    }
  }

  lemma StepKeepsOthers(s: State, a: Action)
    requires Inv(s) && Step(s, a).Some?
    ensures OthersDistinct(Step(s, a).value)
  {
    if a.Exchange? {
      assert Claims(s, a.thread, s.threads[a.thread].id);
    }
  }

  lemma StepKeepsReturns(s: State, a: Action)
    requires Inv(s) && Step(s, a).Some?
    ensures ReturnsMatchCells(Step(s, a).value)
  {
    if a.Exchange? {
      assert Claims(s, a.thread, s.threads[a.thread].id);
    }
  }

  lemma ClaimStep(s: State, a: Action, t: nat, id: nat)
    requires Inv(s) && Step(s, a).Some?
    requires Claims(Step(s, a).value, t, id)
    ensures Claims(s, t, id) || (a == Allocate(t) && id == s.next)
  {
  }

  lemma StepKeepsClaims(s: State, a: Action)
    requires Inv(s) && Step(s, a).Some?
    ensures ThreadsInRange(Step(s, a).value)
    ensures ClaimsUnused(Step(s, a).value)
    ensures ClaimsDistinct(Step(s, a).value)
  {
    var s' := Step(s, a).value;
    forall t: nat, id: nat | Claims(s', t, id)
      ensures 0 < id < s'.next && Unused(s', id)
    {
      StepKeepsClaim(s, a, t, id);
    }
    forall t: nat, u: nat, id: nat | Claims(s', t, id) && Claims(s', u, id)
      ensures t == u
    {
      ClaimStep(s, a, t, id);
      ClaimStep(s, a, u, id);
    }
  }

  lemma StepKeepsClaim(s: State, a: Action, t: nat, id: nat)
    requires Inv(s) && Step(s, a).Some? && Claims(Step(s, a).value, t, id)
    ensures 0 < id < Step(s, a).value.next && Unused(Step(s, a).value, id)
  {
    ClaimStep(s, a, t, id);
    if a.Exchange? {
      assert Claims(s, a.thread, s.threads[a.thread].id);
    }
  }

  lemma Reachable(actions: seq<Action>)
    requires Reach(actions).Some?
    ensures Inv(Reach(actions).value)
  {
    forall s, a | Inv(s) && Step(s, a).Some?
      ensures Inv(Step(s, a).value)
    {
      StepKeepsInv(s, a);
    }
    Runs.Preserved(Step, Inv, START, actions);
  }

  /** All completed `get` calls on one cell return the same nonzero id, and calls on
      different cells return different ids. */
  lemma GetsAgree(actions: seq<Action>, i: nat, j: nat)
    requires Reach(actions).Some? && i < |Reach(actions).value.returned| && j < |Reach(actions).value.returned|
    ensures var returned := Reach(actions).value.returned;
            && returned[i].id != 0
            && (returned[i].id == returned[j].id <==> returned[i].cell == returned[j].cell)
  {
    Reachable(actions);
  }

  /** Ids handed out without a cell never meet each other or an id in a cell. */
  lemma OtherIdsAreSeparate(actions: seq<Action>, i: nat, c: nat)
    requires Reach(actions).Some? && i < |Reach(actions).value.other| && c < |Reach(actions).value.cells|
    ensures var s := Reach(actions).value;
            && s.other[i] != s.cells[c]
            && forall j :: 0 <= j < |s.other| && j != i ==> s.other[j] != s.other[i]
  {
    Reachable(actions);
  }

  /** Cell `c` holds `id`, and the counter has reached `floor`. */
  ghost predicate Assigned(s: State, c: nat, id: nat, floor: nat) {
    Inv(s) && c < |s.cells| && s.cells[c] == id != 0 && floor <= s.next
  }

  lemma StepKeepsAssigned(s: State, a: Action, c: nat, id: nat, floor: nat)
    requires Assigned(s, c, id, floor) && Step(s, a).Some?
    ensures Assigned(Step(s, a).value, c, id, floor)
  {
    StepKeepsInv(s, a);
  }

  /** Once set, a cell's id never changes, and the counter never goes back or past u64. */
  lemma IdsAreForever(before: seq<Action>, after: seq<Action>, c: nat)
    requires Reach(before).Some? && Reach(before + after).Some?
    requires c < |Reach(before).value.cells| && Reach(before).value.cells[c] != 0
    ensures var s, s' := Reach(before).value, Reach(before + after).value;
            && c < |s'.cells| && s'.cells[c] == s.cells[c]
            && s.next <= s'.next <= U64_MAX
  {
    Reachable(before);
    var s := Reach(before).value;
    Runs.Concatenated(Step, START, before, after);
    var inv := (t: State) => Assigned(t, c, s.cells[c], s.next);
    forall t, a | inv(t) && Step(t, a).Some?
      ensures inv(Step(t, a).value)
    {
      StepKeepsAssigned(t, a, c, s.cells[c], s.next);
    }
    Runs.Preserved(Step, inv, s, after);
  }

  // ---------- every call gets its answer ----------

  /** A step that ends a `get` on cell `c` has answered with the nonzero id the cell now holds. */
  ghost predicate Answers(s: State, s': State, c: nat) {
    && c < |s.cells| && |s'.cells| == |s.cells| && s'.cells[c] != 0
    && s'.returned == s.returned + [Return(c, s'.cells[c])]
    && forall d :: 0 <= d < |s.cells| && d != c ==> s'.cells[d] == s.cells[d]
  }

  /** In every reachable state, a call on a cell with an id is answered at once; one that found
      none allocates, unless the counter is exhausted, and is then answered by its exchange. */
  lemma GetsAreAnswered(actions: seq<Action>, t: nat, c: nat)
    requires Reach(actions).Some?
    ensures var s := Reach(actions).value;
            && (t !in s.threads && c < |s.cells| ==>
                  var s' := Step(s, Load(t, c));
                  s'.Some? && if s.cells[c] != 0 then Answers(s, s'.value, c)
                              else t in s'.value.threads && s'.value.threads[t] == Missed(c))
            && (t in s.threads && s.threads[t] == Missed(c) ==>
                  var s' := Step(s, Allocate(t));
                  s'.Some? && if s.next < U64_MAX
                              then t in s'.value.threads && s'.value.threads[t] == Claiming(c, s.next)
                              else t !in s'.value.threads && s'.value.returned == s.returned)
            && (t in s.threads && s.threads[t].Claiming? && s.threads[t].cell == c ==>
                  var s' := Step(s, Exchange(t));
                  s'.Some? && t !in s'.value.threads && Answers(s, s'.value, c)
                  && (s.cells[c] == 0 ==> s'.value.cells[c] == s.threads[t].id))
  {
    Reachable(actions);
    var s := Reach(actions).value;
    if t in s.threads && s.threads[t].Claiming? {
      assert Claims(s, t, s.threads[t].id);
    }
  }

  /** The calls without a cell, and the two constructors, below exhaustion. */
  lemma AllocationsAreFresh(s: State)
    requires s.next < U64_MAX
    ensures Step(s, AllocateOther).Some? && Step(s, AllocateOther).value.other == s.other + [s.next]
    ensures Step(s, NewEager).Some? && Step(s, NewEager).value.cells == s.cells + [s.next]
    ensures Step(s, NewLazy).Some? && Step(s, NewLazy).value.cells == s.cells + [0]
    ensures Step(s, AllocateOther).value.next == Step(s, NewEager).value.next == s.next + 1
  {
  }

}
