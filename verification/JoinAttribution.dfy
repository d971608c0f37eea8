/** Which task a join event names: the hook remembers, per OS thread, the task being polled. */
module JoinAttribution {

  import opened Options

  /** What one OS thread calls on the task hook, in order. */
  datatype Callback =
    | PollStarted(task: nat)
    | PollCompleted(task: nat)
    | TaskCompleted(task: nat)
    | JoinRequested(joined: nat)
    | JoinResolved(joined: nat)

  datatype JoinEvent = JoinEvent(joiner: nat, joined: nat, resolved: bool)

  /** The hook on one OS thread. */
  class ProbeTaskHook {
    var current: Option<nat>
    var joins: seq<JoinEvent>

    constructor ()
      ensures current == None && joins == []
    {
      current, joins := None, [];
    }

    method Call(c: Callback)
      modifies this
      ensures match c
              case PollStarted(t) => current == Some(t) && joins == old(joins)
              case PollCompleted(_) => current == None && joins == old(joins)
              case TaskCompleted(_) => current == None && joins == old(joins)
              case JoinRequested(j) =>
                && current == old(current)
                && joins == old(joins) + if current.Some? then [JoinEvent(current.value, j, false)] else []
              case JoinResolved(j) =>
                && current == old(current)
                && joins == old(joins) + if current.Some? then [JoinEvent(current.value, j, true)] else []
    {
      match c {
        case PollStarted(t) => current := Some(t);
        case PollCompleted(_) => current := None;
        case TaskCompleted(_) => current := None;
        case JoinRequested(j) => if current.Some? { joins := joins + [JoinEvent(current.value, j, false)]; }
        case JoinResolved(j) => if current.Some? { joins := joins + [JoinEvent(current.value, j, true)]; }
      }
    }

    /** Everything one OS thread calls. */
    method CallAll(calls: seq<Callback>)
      requires current == None && joins == []
      modifies this
      ensures current == Current(calls) && joins == Joins(calls)
    {
      for i := 0 to |calls|
        invariant current == Current(calls[..i]) && joins == Joins(calls[..i])
      {
        assert calls[..i + 1][..i] == calls[..i];
        Call(calls[i]);
      }
      assert calls[..|calls|] == calls;
    }
  }

  function CurrentAfter(current: Option<nat>, c: Callback): Option<nat> {
    match c
    case PollStarted(t) => Some(t)
    case PollCompleted(_) => None
    case TaskCompleted(_) => None
    case _ => current
  }

  predicate IsJoin(c: Callback) {
    c.JoinRequested? || c.JoinResolved?
  }

  function Emitted(current: Option<nat>, c: Callback): seq<JoinEvent> {
    if IsJoin(c) && current.Some? then [JoinEvent(current.value, c.joined, c.JoinResolved?)] else []
  }

  /** The thread-local after `calls`. */
  function Current(calls: seq<Callback>): Option<nat> {
    if calls == [] then None else CurrentAfter(Current(calls[..|calls| - 1]), calls[|calls| - 1])
  }

  /** The join events the hook emits. */
  function Joins(calls: seq<Callback>): seq<JoinEvent> {
    if calls == [] then []
    else Joins(calls[..|calls| - 1]) + Emitted(Current(calls[..|calls| - 1]), calls[|calls| - 1])
  }

  // ---------- against the poll brackets ----------

  /** The polls open on this thread, innermost last. */
  function Open(calls: seq<Callback>): seq<nat> {
    if calls == [] then []
    else
      var before := Open(calls[..|calls| - 1]);
      match calls[|calls| - 1]
      case PollStarted(t) => before + [t]
      case PollCompleted(_) => if before == [] then [] else before[..|before| - 1]
      case _ => before
  }

  /** What the join events should be: each names the innermost open poll. */
  function BracketJoins(calls: seq<Callback>): seq<JoinEvent> {
    if calls == [] then []
    else
      var before, c := calls[..|calls| - 1], calls[|calls| - 1];
      var open := Open(before);
      BracketJoins(before) + Emitted(if open == [] then None else Some(open[|open| - 1]), c)
  }

  /** Polls do not nest, and a task completes outside its poll brackets. */
  predicate NotNested(calls: seq<Callback>) {
    calls == [] ||
    var before, c := calls[..|calls| - 1], calls[|calls| - 1];
    && NotNested(before)
    && (c.PollStarted? || c.TaskCompleted? ==> Open(before) == [])
  }

  /** With polls that do not nest, join events name exactly the task whose bracket is open. */
  lemma {:induction false} JoinsNameOpenPoll(calls: seq<Callback>)
    requires NotNested(calls)
    ensures Joins(calls) == BracketJoins(calls)
    ensures Open(calls) == if Current(calls).Some? then [Current(calls).value] else []
    decreases |calls|
  {
    if calls != [] {
      JoinsNameOpenPoll(calls[..|calls| - 1]);
    }
  }

  function LatestBoundary(calls: seq<Callback>): Option<Callback> {
    if calls == [] then None
    else if IsJoin(calls[|calls| - 1]) then LatestBoundary(calls[..|calls| - 1])
    else Some(calls[|calls| - 1])
  }

  /** Nested or not, a join event is emitted iff the thread's latest boundary was a poll
      start, and it names that poll. */
  lemma {:induction false} CurrentIsLatestStart(calls: seq<Callback>)
    ensures Current(calls) == match LatestBoundary(calls)
                              case Some(PollStarted(t)) => Some(t)
                              case _ => None
    decreases |calls|
  {
    if calls != [] {
      CurrentIsLatestStart(calls[..|calls| - 1]);
    }
  }

  // ---------- exactly when attribution is right ----------

  function Top(open: seq<nat>): Option<nat> {
    if open == [] then None else Some(open[|open| - 1])
  }

  /** A task the thread-local names is always the innermost open poll. */
  lemma {:induction false} CurrentIsInnermost(calls: seq<Callback>)
    ensures Current(calls).Some? ==> Current(calls) == Top(Open(calls))
    decreases |calls|
  {
    if calls != [] {
      CurrentIsInnermost(calls[..|calls| - 1]);
    }
  }

  /** So joins can only be dropped, never misattributed. */
  lemma {:induction false} JoinsAreFewer(calls: seq<Callback>)
    ensures |Joins(calls)| <= |BracketJoins(calls)|
    decreases |calls|
  {
    if calls != [] {
      JoinsAreFewer(calls[..|calls| - 1]);
      CurrentIsInnermost(calls[..|calls| - 1]);
    }
  }

  /** Call `i` is no join, or falls outside every poll, or follows a poll start with no other
      boundary in between. */
  predicate JoinIsFresh(calls: seq<Callback>, i: nat)
    requires i < |calls|
  {
    IsJoin(calls[i]) && Open(calls[..i]) != [] ==>
      LatestBoundary(calls[..i]).Some? && LatestBoundary(calls[..i]).value.PollStarted?
  }

  lemma JoinStep(calls: seq<Callback>)
    requires calls != []
    ensures var n := |calls| - 1;
            && (Joins(calls) == BracketJoins(calls) <==>
                Joins(calls[..n]) == BracketJoins(calls[..n]) && JoinIsFresh(calls, n))
  {
    var n := |calls| - 1;
    var before := calls[..n];
    CurrentIsInnermost(before);
    CurrentIsLatestStart(before);
    JoinsAreFewer(before);
    var current, top := Emitted(Current(before), calls[n]), Emitted(Top(Open(before)), calls[n]);
    assert BracketJoins(calls) == BracketJoins(before) + top;
    if Joins(calls) == BracketJoins(calls) {
      assert |current| == |top|;
      assert Joins(before) == Joins(calls)[..|Joins(before)|];
    }
  }

  predicate AllJoinsFresh(calls: seq<Callback>) {
    forall i :: 0 <= i < |calls| ==> JoinIsFresh(calls, i)
  }

  lemma FreshStep(calls: seq<Callback>)
    requires calls != []
    ensures var n := |calls| - 1;
            AllJoinsFresh(calls) <==> AllJoinsFresh(calls[..n]) && JoinIsFresh(calls, n)
  {
    var n := |calls| - 1;
    forall i | 0 <= i < n
      ensures JoinIsFresh(calls[..n], i) == JoinIsFresh(calls, i)
    {
      assert calls[..n][..i] == calls[..i];
    }
  }

  /** The exact condition, over every sequence of callbacks, nested or not: the join events
      are those the brackets call for iff each join inside a poll comes after a poll start
      with no other boundary in between. */
  lemma {:induction false} AttributionIsExact(calls: seq<Callback>)
    ensures Joins(calls) == BracketJoins(calls) <==> AllJoinsFresh(calls)
    decreases |calls|
  {
    if calls != [] {
      AttributionIsExact(calls[..|calls| - 1]);
      JoinStep(calls);
      FreshStep(calls);
    }
  }

  /** Nested polls do lose attribution: after an inner poll ends, a join inside the outer one is dropped. */
  lemma NestedPollDropsJoin(outer: nat, inner: nat, joined: nat)
    ensures var calls := [PollStarted(outer), PollStarted(inner), PollCompleted(inner), JoinRequested(joined)];
            !JoinIsFresh(calls, 3) && Joins(calls) == [] && BracketJoins(calls) == [JoinEvent(outer, joined, false)]
  {
    var calls := [PollStarted(outer), PollStarted(inner), PollCompleted(inner), JoinRequested(joined)];
    var three, two, one := calls[..3], calls[..2], calls[..1];
    assert three[..2] == two && two[..1] == one && one[..0] == [];
    assert Open(one) == [outer] && Joins(one) == [] && BracketJoins(one) == [];
    assert Open(two) == [outer, inner] && Joins(two) == [] && BracketJoins(two) == [];
    assert Open(three) == [outer] && Joins(three) == [] && BracketJoins(three) == [] && Current(three) == None;
  }
}
