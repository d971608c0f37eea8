/** Where the lock-order check stops: what clean programs can still do. */
module LockLimits {

  import opened Options
  import opened LockOrder
  import opened LockSemantics
  import Runs

  // ---------- rings of three ----------

  /** Take `p`, then `r` inside it. */
  function Nested(p: Resource, r: Resource): seq<LockOp> {
    [Acquire(p, Exclusive), Acquire(r, Exclusive), Release(r), Release(p)]
  }

  lemma NestedHolds(p: Resource, r: Resource)
    requires p != r
    ensures var ops, hp, hr := Nested(p, r), Hold(p, Exclusive), Hold(r, Exclusive);
            && HeldAfter(ops[..0]) == [] && HeldAfter(ops[..1]) == [hp] && HeldAfter(ops[..2]) == [hp, hr]
            && HeldAfter(ops[..3]) == [hp] && HeldAfter(ops[..4]) == []
  {
    var ops, hp, hr := Nested(p, r), Hold(p, Exclusive), Hold(r, Exclusive);
    HeldSnoc(ops, 0);
    HeldSnoc(ops, 1);
    assert HeldAfter(ops[..1]) == [hp] && HeldAfter(ops[..2]) == [hp, hr];
    HeldSnoc(ops, 2);
    WithoutSecond(hp, hr);
    HeldSnoc(ops, 3);
    WithoutOnly(hp);
  }

  lemma WithoutOnly(h: Hold)
    ensures Without([h], h.resource) == []
  {
  }

  lemma WithoutSecond(h: Hold, g: Hold)
    requires h.resource != g.resource
    ensures Without([h, g], g.resource) == [h]
  {
    WithoutOnly(g);
    assert [h, g][1..] == [g];
  }

  lemma NestedProgram(p: Resource, r: Resource)
    requires p != r
    ensures Disciplined(Nested(p, r))
    ensures OrderEdges(Nested(p, r)) == {Edge(p, Exclusive, r, Exclusive)}
  {
    var ops, hp, hr := Nested(p, r), Hold(p, Exclusive), Hold(r, Exclusive);
    NestedHolds(p, r);
    assert [hp][0] == hp && [hp, hr][1] == hr;
    assert ops[..4] == ops;
    forall k: nat | k < |ops|
      ensures OpFits(ops, k)
    {
      assert k == 0 || k == 1 || k == 2 || k == 3;
    }
    NestedEdges(p, r);
  }

  lemma NestedEdges(p: Resource, r: Resource)
    requires p != r
    ensures OrderEdges(Nested(p, r)) == {Edge(p, Exclusive, r, Exclusive)}
  {
    var ops := Nested(p, r);
    NestedHolds(p, r);
    HeldSnoc(ops, 0);
    HeldSnoc(ops, 1);
    HeldSnoc(ops, 2);
    HeldSnoc(ops, 3);
    assert ops[..4] == ops;
  }

  function Ids(n: nat): (ids: set<ThreadId>)
    ensures |ids| == n && forall t: ThreadId :: t in ids <==> t < n
  {
    if n == 0 then {} else Ids(n - 1) + {n - 1}
  }

  /** Threads 0, 1 and 2 nest three resources in a ring; any others do nothing. */
  function Ring(n: nat, a: Resource, b: Resource, c: Resource): Programs {
    map t | t in Ids(n) ::
      if t == 0 then Nested(a, b) else if t == 1 then Nested(b, c) else if t == 2 then Nested(c, a) else []
  }

  lemma RingShape(n: nat, a: Resource, b: Resource, c: Resource)
    requires n >= 3
    ensures var progs := Ring(n, a, b, c);
            && |progs| == n && OnlyThree(progs)
            && progs[0] == Nested(a, b) && progs[1] == Nested(b, c) && progs[2] == Nested(c, a)
  {
    var progs := Ring(n, a, b, c);
    assert |progs| == |progs.Keys| && progs.Keys == Ids(n);
  }

  /** The other threads' programs are empty. */
  ghost predicate OnlyThree(progs: Programs) {
    0 in progs && 1 in progs && 2 in progs && forall t :: t in progs && t > 2 ==> progs[t] == []
  }

  lemma RingEdges(progs: Programs, e: Edge, f: Edge, g: Edge)
    requires OnlyThree(progs)
    requires OrderEdges(progs[0]) == {e} && OrderEdges(progs[1]) == {f} && OrderEdges(progs[2]) == {g}
    ensures ProgramEdges(progs) == {e, f, g}
  {
    assert forall t :: t in progs ==> t == 0 || t == 1 || t == 2 || OrderEdges(progs[t]) == {};
  }

  lemma RingPrograms(progs: Programs)
    requires OnlyThree(progs)
    requires Disciplined(progs[0]) && Disciplined(progs[1]) && Disciplined(progs[2])
    ensures AllDisciplined(progs)
  {
    forall t | t in progs
      ensures Disciplined(progs[t])
    {
      assert t == 0 || t == 1 || t == 2 || progs[t] == [];
    }
  }

  lemma RingHasNoCycle(a: Resource, b: Resource, c: Resource)
    requires a != b && b != c && c != a
    ensures var e, f := Edge(a, Exclusive, b, Exclusive), Edge(b, Exclusive, c, Exclusive);
            !HasCycle({e, f, Edge(c, Exclusive, a, Exclusive)})
  {
  }

  /** Three programs, each with one nesting, whose nestings go round in a ring. */
  lemma RingIsCleanFrom(progs: Programs, a: Resource, b: Resource, c: Resource)
    requires a != b && b != c && c != a
    requires OnlyThree(progs)
    requires OrderEdges(progs[0]) == {Edge(a, Exclusive, b, Exclusive)}
    requires OrderEdges(progs[1]) == {Edge(b, Exclusive, c, Exclusive)}
    requires OrderEdges(progs[2]) == {Edge(c, Exclusive, a, Exclusive)}
    ensures ProgramsClean(progs)
  {
    var e, f := Edge(a, Exclusive, b, Exclusive), Edge(b, Exclusive, c, Exclusive);
    RingEdges(progs, e, f, Edge(c, Exclusive, a, Exclusive));
    RingHasNoCycle(a, b, c);
  }

  lemma RingIsClean(progs: Programs, a: Resource, b: Resource, c: Resource)
    requires a != b && b != c && c != a
    requires OnlyThree(progs)
    requires progs[0] == Nested(a, b) && progs[1] == Nested(b, c) && progs[2] == Nested(c, a)
    ensures AllDisciplined(progs) && ProgramsClean(progs)
  {
    NestedProgram(a, b);
    NestedProgram(b, c);
    NestedProgram(c, a);
    RingPrograms(progs);
    RingIsCleanFrom(progs, a, b, c);
  }

  /** Where threads 0, 1 and 2 have each taken their first lock. */
  function AllWaiting(progs: Programs, a: Resource, b: Resource, c: Resource): State {
    State(Start(progs).pc[0 := 1][1 := 1][2 := 1],
          {Grant(0, a, Exclusive), Grant(1, b, Exclusive), Grant(2, c, Exclusive)})
  }

  lemma RingReaches(progs: Programs, a: Resource, b: Resource, c: Resource)
    requires a != b && b != c && c != a && OnlyThree(progs)
    requires progs[0] == Nested(a, b) && progs[1] == Nested(b, c) && progs[2] == Nested(c, a)
    ensures Reach(progs, [0, 1, 2]) == Some(AllWaiting(progs, a, b, c))
  {
    var step := (s: State, t: ThreadId) => Step(progs, s, t);
    var s0 := Start(progs);
    var s1 := State(s0.pc[0 := 1], {Grant(0, a, Exclusive)});
    var s2 := State(s1.pc[1 := 1], {Grant(0, a, Exclusive), Grant(1, b, Exclusive)});
    var s3 := AllWaiting(progs, a, b, c);
    assert Step(progs, s0, 0) == Some(s1) by {
      assert s0.grants + {Grant(0, a, Exclusive)} == s1.grants;
    }
    assert Step(progs, s1, 1) == Some(s2) by {
      assert s1.grants + {Grant(1, b, Exclusive)} == s2.grants;
    }
    assert Step(progs, s2, 2) == Some(s3) by {
      assert s2.grants + {Grant(2, c, Exclusive)} == s3.grants;
    }
    assert Runs.Execute(step, s2, [2]) == Some(s3);
    assert [1, 2][1..] == [2] && Runs.Execute(step, s1, [1, 2]) == Some(s3);
    assert [0, 1, 2][1..] == [1, 2] && Runs.Execute(step, s0, [0, 1, 2]) == Some(s3);
  }

  lemma RingBlocks(progs: Programs, a: Resource, b: Resource, c: Resource, t: ThreadId)
    requires OnlyThree(progs)
    requires progs[0] == Nested(a, b) && progs[1] == Nested(b, c) && progs[2] == Nested(c, a)
    ensures Step(progs, AllWaiting(progs, a, b, c), t).None?
  {
    var s := AllWaiting(progs, a, b, c);
    assert Grant(0, a, Exclusive) in s.grants && Grant(1, b, Exclusive) in s.grants;
    assert Grant(2, c, Exclusive) in s.grants;
    assert t in progs && t > 2 ==> progs[t] == [];
  }

  /** The check sees two-resource cycles only: with three threads or more, clean programs can
      deadlock. */
  lemma RingIsMissed(n: nat, a: Resource, b: Resource, c: Resource)
    requires n >= 3 && a != b && b != c && c != a
    ensures var progs := Ring(n, a, b, c);
            && |progs| == n && AllDisciplined(progs) && ProgramsClean(progs)
            && Reach(progs, [0, 1, 2]).Some?
            && !Final(progs, Reach(progs, [0, 1, 2]).value)
            && !CanMove(progs, Reach(progs, [0, 1, 2]).value)
  {
    var progs := Ring(n, a, b, c);
    RingShape(n, a, b, c);
    RingIsClean(progs, a, b, c);
    RingReaches(progs, a, b, c);
    var s := Reach(progs, [0, 1, 2]).value;
    assert Running(progs, s, 0);
    forall t: ThreadId
      ensures Step(progs, s, t).None?
    {
      RingBlocks(progs, a, b, c, t);
    }
  }

  /** A clean verdict on `n` threads rules out deadlock in every schedule. */
  ghost predicate CleanIsSafeFor(n: nat) {
    forall progs: Programs, schedule ::
      |progs| == n && AllDisciplined(progs) && ProgramsClean(progs) && Reach(progs, schedule).Some? ==>
        Final(progs, Reach(progs, schedule).value) || CanMove(progs, Reach(progs, schedule).value)
  }

  lemma AtMostTwo(progs: Programs) returns (a: ThreadId, b: ThreadId)
    requires |progs| <= 2
    ensures forall t :: t in progs ==> t == a || t == b
  {
    a, b := 0, 0;
    if t :| t in progs.Keys {
      a := t;
      var others := progs.Keys - {t};
      assert |others| <= 1;
      if u :| u in others {
        b := u;
        assert |others - {u}| == 0;
      }
    }
  }

  /** The exact reach of the check: a clean verdict means deadlock freedom for at most two
      threads, and for no larger number. */
  lemma CleanIsSafeUpToTwo(n: nat)
    ensures CleanIsSafeFor(n) <==> n <= 2
  {
    if n <= 2 {
      forall progs: Programs, schedule |
        |progs| == n && AllDisciplined(progs) && ProgramsClean(progs) && Reach(progs, schedule).Some?
        ensures Final(progs, Reach(progs, schedule).value) || CanMove(progs, Reach(progs, schedule).value)
      {
        var a, b := AtMostTwo(progs);
        TwoThreadsNeverStuck(progs, schedule, a, b);
      }
    } else {
      RingIsMissed(n, 0, 1, 2);
      var progs := Ring(n, 0, 1, 2);
      assert Reach(progs, [0, 1, 2]).Some?;
    }
  }

  // ---------- upgrades ----------

  /** Take `r` to read, then to write. */
  function Upgrade(r: Resource): seq<LockOp> {
    [Acquire(r, Shared), Acquire(r, Exclusive), Release(r)]
  }

  lemma UpgradeHolds(r: Resource)
    ensures var ops, h := Upgrade(r), Hold(r, Shared);
            && HeldAfter(ops[..1]) == [h] && HeldAfter(ops[..2]) == [h] && HeldAfter(ops) == []
            && OrderEdges(ops) == {}
  {
    var ops, h := Upgrade(r), Hold(r, Shared);
    HeldSnoc(ops, 0);
    assert ops[..0] == [] && HeldAfter(ops[..1]) == [h];
    HeldSnoc(ops, 1);
    assert [h][0].resource == r && Holds([h], r);
    HeldSnoc(ops, 2);
    WithoutOnly(h);
    assert ops[..3] == ops;
  }

  /** Why the exclusion of upgrades matters: two threads that hold one resource to read and then
      each take it to write wait for each other, and the check sees no edge at all. */
  lemma UpgradeIsMissed(r: Resource)
    ensures var progs: Programs := map[0 := Upgrade(r), 1 := Upgrade(r)];
            && !NoUpgrade(progs[0]) && HeldAfter(progs[0]) == [] && ProgramsClean(progs)
            && Reach(progs, [0, 1]).Some?
            && MutualWait(progs, Reach(progs, [0, 1]).value, 0, 1)
            && !CanMove(progs, Reach(progs, [0, 1]).value)
  {
    var progs: Programs := map[0 := Upgrade(r), 1 := Upgrade(r)];
    var step := (s: State, t: ThreadId) => Step(progs, s, t);
    var g, h := Grant(0, r, Shared), Grant(1, r, Shared);
    var s0 := Start(progs);
    var s1, s2 := State(s0.pc[0 := 1], {g}), State(s0.pc[0 := 1][1 := 1], {g, h});
    UpgradeHolds(r);
    assert !OpFits(progs[0], 1) by {
      assert Hold(r, Shared) in HeldAfter(progs[0][..1]);
    }
    assert Step(progs, s0, 0) == Some(s1) && Step(progs, s1, 1) == Some(s2) by {
      assert s0.grants + {g} == s1.grants && s1.grants + {h} == s2.grants;
    }
    assert [0, 1][1..] == [1] && Runs.Execute(step, s1, [1]) == Some(s2);
    assert Runs.Execute(step, s0, [0, 1]) == Some(s2);
    assert About(progs, s2, 0, r, Exclusive) && BlockedBy(s2, 0, r, Exclusive, h);
    assert About(progs, s2, 1, r, Exclusive) && BlockedBy(s2, 1, r, Exclusive, g);
  }

}
