/** What each call on an observed semaphore or read-write lock can do, and what it tells the hook
    when: so that nothing is refused, swallowed or reported in the wrong place. */
module SeamMoves {

  import opened LockSeam
  import Runs

  // ---------- when the real lock serves ----------

  /** A semaphore serves a request that fits into the permits nobody has. */
  lemma SemaphoreServes(s: State, n: nat)
    requires s.lock.Semaphore?
    ensures CanServe(s, Permits(n)) <==> n <= s.lock.initial + s.added - Sum(s.callers, RealSize)
  {
  }

  predicate HasLock(s: State, c: int, kind: Kind) {
    0 <= c < |s.callers| && s.callers[c].kind == kind && OwnsReal(s.callers[c])
  }

  /** A read-write lock serves a reader beside any readers, and a writer beside nobody. */
  lemma RwLockServes(s: State)
    requires s.lock.RwLock? && KindsFit(s)
    ensures CanServe(s, RwRead) <==> forall c :: !HasLock(s, c, RwWrite)
    ensures CanServe(s, RwWrite) <==> forall c :: !HasLock(s, c, RwWrite) && !HasLock(s, c, RwRead)
  {
    assert forall c :: 0 <= c < |s.callers| ==> CallerFits(s.lock, s.callers[c]);
    if !CanServe(s, RwRead) {
      var i :| 0 <= i < |s.callers| && OwnsReal(s.callers[i]) && !Compatible(RwRead, s.callers[i].kind);
      assert HasLock(s, i, RwWrite);
    }
    if c :| HasLock(s, c, RwWrite) {
      assert !CanServe(s, RwRead) && !CanServe(s, RwWrite);
    }
    if c :| HasLock(s, c, RwRead) {
      assert !CanServe(s, RwWrite);
    }
    if !CanServe(s, RwWrite) {
      var i :| 0 <= i < |s.callers| && OwnsReal(s.callers[i]) && !Compatible(RwWrite, s.callers[i].kind);
      assert HasLock(s, i, RwWrite) || HasLock(s, i, RwRead);
    }
  }

  // ---------- what the calls do ----------

  /** Caller `c` becomes `caller`, `told` is logged, and nothing else changes but the flag. */
  ghost predicate Becomes(s: State, a: Action, c: nat, pc: Pc, told: seq<Event>) {
    && c < |s.callers| && Step(s, a).Some?
    && var s' := Step(s, a).value;
       && s'.callers == s.callers[c := Caller(s.callers[c].kind, pc)]
       && s'.log == s.log + told && s'.added == s.added && s'.lock == s.lock
       && (s.createdReported ==> s'.createdReported)
  }

  function First(s: State): Stage {
    if s.lock.Semaphore? then BeforeSwap else Ready
  }

  /** A waiting call is served when the real lock can, and otherwise waits on. */
  lemma Polls(s: State, c: nat)
    requires c < |s.callers| && (s.callers[c].pc == Fresh || s.callers[c].pc == Waiting)
    ensures CanServe(s, s.callers[c].kind) ==> Becomes(s, On(c, PollReady), c, Granted(First(s)), [])
    ensures s.callers[c].pc == Fresh ==> Becomes(s, On(c, PollPending), c, Requesting(First(s)), [])
    ensures s.callers[c].pc == Waiting ==> Becomes(s, On(c, PollPending), c, Waiting, [])
  {
    assert s.log + [] == s.log;
  }

  /** Dropping it says so exactly if the wait was announced. */
  lemma Drops(s: State, c: nat)
    requires c < |s.callers|
    ensures s.callers[c].pc == Fresh ==> Becomes(s, On(c, DropFuture), c, Gone, [])
    ensures s.callers[c].pc == Waiting ==> Becomes(s, On(c, DropFuture), c, Gone, [Dropped(c)])
  {
    assert s.log + [] == s.log;
  }

  /** A report begun can always go on: past the creation, it says what happened, to whom. */
  lemma ReportsGoOn(s: State, c: nat)
    requires c < |s.callers|
    ensures s.callers[c].pc == Requesting(Ready) ==>
              Becomes(s, On(c, Report), c, Waiting, [Requested(c, s.callers[c].kind)])
    ensures s.callers[c].pc == Granted(Ready) ==>
              Becomes(s, On(c, Report), c, Held, [Acquired(c, s.callers[c].kind)])
    ensures s.callers[c].pc == Adding(Ready) && s.callers[c].kind.Add? ==>
              Becomes(s, On(c, Report), c, Gone, [PermitsAdded(s.callers[c].kind.n)])
  {
  }

  /** Before that, the first to swap the flag reports the creation, with the initial permits,
      and everyone else goes straight on. */
  lemma CreationGoesOn(s: State, c: nat)
    requires c < |s.callers| && s.lock.Semaphore? && Reporting(s.callers[c].pc)
    ensures s.callers[c].pc.stage == BeforeSwap ==>
              && Step(s, On(c, Report)).Some? && Step(s, On(c, Report)).value.createdReported
              && Becomes(s, On(c, Report), c,
                         AtStage(s.callers[c].pc, if s.createdReported then Ready else MustCreate), [])
    ensures s.callers[c].pc.stage == MustCreate ==>
              Becomes(s, On(c, Report), c, AtStage(s.callers[c].pc, Ready), [Created(s.lock.initial)])
  {
    assert s.log + [] == s.log;
  }

  /** What is held can be given back, the report first and the lock after it, or, if it is
      permits, forgotten without a word. */
  lemma Releases(s: State, c: nat)
    requires c < |s.callers|
    ensures s.callers[c].pc == Held ==>
              Becomes(s, On(c, DropGuard), c, Returning, [Released(c, s.callers[c].kind)])
    ensures s.callers[c].pc == Returning ==> Becomes(s, On(c, GiveBack), c, Gone, [])
    ensures s.callers[c].pc == Held && s.callers[c].kind.Permits? ==> Becomes(s, On(c, Forget), c, Forgotten, [])
  {
    assert s.log + [] == s.log;
  }

  /** New calls: every request of the right sort is taken, a `try_*` call is served at once if it
      can be, and added permits are there before they are reported. */
  lemma CallsBegin(s: State, kind: Kind, n: nat)
    ensures Fits(s.lock, kind) ==>
              && Step(s, Call(kind)).Some?
              && Step(s, Call(kind)).value == s.(callers := s.callers + [Caller(kind, Fresh)])
    ensures Fits(s.lock, kind) && CanServe(s, kind) ==>
              && Step(s, TryAcquire(kind)).Some?
              && Step(s, TryAcquire(kind)).value == s.(callers := s.callers + [Caller(kind, Granted(First(s)))])
    ensures s.lock.Semaphore? ==>
              && Step(s, AddPermits(n)).Some?
              && Step(s, AddPermits(n)).value ==
                 s.(callers := s.callers + [Caller(Add(n), Adding(BeforeSwap))], added := s.added + n)
  {
  }

  // ---------- the creation's payload ----------

  ghost predicate CreationsFit(s: State) {
    s.lock.Semaphore? && forall i :: 0 <= i < |s.log| && s.log[i].Created? ==> s.log[i].permits == s.lock.initial
  }

  /** The creation is reported with the permits the semaphore was made with. */
  lemma CreatedWithInitial(initial: nat, actions: seq<Action>, i: nat)
    requires Reach(Semaphore(initial), actions).Some? && i < |Reach(Semaphore(initial), actions).value.log|
    ensures var e := Reach(Semaphore(initial), actions).value.log[i]; e.Created? ==> e.permits == initial
  {
    var inv := (s: State) => CreationsFit(s) && s.lock == Semaphore(initial);
    forall s, a | inv(s) && Step(s, a).Some?
      ensures inv(Step(s, a).value)
    {
      PayloadStep(s, a);
    }
    Runs.Preserved(Step, inv, Start(Semaphore(initial)), actions);
  }

  lemma PayloadStep(s: State, a: Action)
    requires CreationsFit(s) && Step(s, a).Some?
    ensures CreationsFit(Step(s, a).value) && Step(s, a).value.lock == s.lock
  {
  }

}
