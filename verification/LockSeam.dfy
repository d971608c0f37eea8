/** The observation seam of the async semaphore and read-write lock: every call
    forwards to the real primitive and reports boundaries to a hook. A real
    operation and its report are separate atomic steps, so other callers may run
    between them. The hook stays installed throughout. */
module LockSeam {

  import opened Options
  import Runs

  /** What a caller asks for. `Add(n)` is a call of `add_permits`. */
  datatype Kind = Permits(n: nat) | RwRead | RwWrite | Add(n: nat)

  datatype Event =
    | Created(permits: nat)
    | PermitsAdded(n: nat)
    | Requested(waiter: nat, kind: Kind)
    | Acquired(waiter: nat, kind: Kind)
    | Released(waiter: nat, kind: Kind)
    | Dropped(waiter: nat)

  /** A semaphore report first swaps the `created_reported` flag; the caller that finds it
      clear reports the creation before its own boundary. */
  datatype Stage = BeforeSwap | MustCreate | Ready

  datatype Pc =
    | Fresh                         // not yet found contended
    | Requesting(stage: Stage)      // contention found, `requested` not yet reported
    | Waiting                       // `requested` reported
    | Granted(stage: Stage)         // the real lock is taken, `acquired` not yet reported
    | Held                          // `acquired` reported
    | Forgotten                     // the permit was forgotten
    | Returning                     // `released` reported, the real lock not yet returned
    | Adding(stage: Stage)          // permits added, `permits_added` not yet reported
    | Gone

  datatype Caller = Caller(kind: Kind, pc: Pc)

  datatype Primitive = Semaphore(initial: nat) | RwLock

  /** `added` is what `add_permits` has given the real semaphore so far. */
  datatype State = State(lock: Primitive, added: nat, callers: seq<Caller>, createdReported: bool, log: seq<Event>)

  function Start(lock: Primitive): State {
    State(lock, 0, [], false, [])
  }

  // ---------- the real lock, as its callers see it ----------

  predicate OwnsReal(c: Caller) {
    c.pc.Granted? || c.pc == Held || c.pc == Forgotten || c.pc == Returning
  }

  function Size(c: Caller): nat {
    if c.kind.Permits? then c.kind.n else 0
  }

  function RealSize(c: Caller): nat {
    if OwnsReal(c) then Size(c) else 0
  }

  function Sum(callers: seq<Caller>, f: Caller -> nat): nat {
    if callers == [] then 0 else Sum(callers[..|callers| - 1], f) + f(callers[|callers| - 1])
  }

  predicate Compatible(a: Kind, b: Kind) {
    a == RwRead && b == RwRead
  }

  /** Whether the real primitive could serve this request now. Queueing order is left open. */
  predicate CanServe(s: State, kind: Kind) {
    match s.lock
    case Semaphore(initial) => kind.Permits? && Sum(s.callers, RealSize) + kind.n <= initial + s.added
    case RwLock =>
      && (kind == RwRead || kind == RwWrite)
      && forall i :: 0 <= i < |s.callers| && OwnsReal(s.callers[i]) ==> Compatible(kind, s.callers[i].kind)
  }

  predicate Fits(lock: Primitive, kind: Kind) {
    if lock.RwLock? then kind == RwRead || kind == RwWrite else kind.Permits?
  }

  // ---------- the calls ----------

  datatype Action =
    | Call(kind: Kind)          // acquire, acquire_many, read, write
    | TryAcquire(kind: Kind)    // a successful try_* call
    | AddPermits(n: nat)
    | On(c: nat, move: Move)    // the next step of caller `c`

  datatype Move =
    | PollPending
    | PollReady
    | Report        // one step of a report in progress
    | DropFuture
    | Forget
    | DropGuard     // reports `released`, then
    | GiveBack      // returns the real lock

  function FirstStage(lock: Primitive): Stage {
    if lock.RwLock? then Ready else BeforeSwap
  }

  predicate Reporting(pc: Pc) {
    pc.Requesting? || pc.Granted? || pc.Adding?
  }

  function AtStage(pc: Pc, stage: Stage): Pc
    requires Reporting(pc)
  {
    match pc
    case Requesting(_) => Requesting(stage)
    case Granted(_) => Granted(stage)
    case Adding(_) => Adding(stage)
  }

  /** What one atomic step changes: caller `c` (a new one if there is none yet) becomes
      `caller`, at most one event is logged, and permits may be added. */
  datatype Change = Change(c: nat, caller: Caller, event: Option<Event>, added: nat, swaps: bool)

  function Plain(c: nat, kind: Kind, pc: Pc): Change {
    Change(c, Caller(kind, pc), None, 0, false)
  }

  function Logging(c: nat, kind: Kind, pc: Pc, e: Event): Change {
    Change(c, Caller(kind, pc), Some(e), 0, false)
  }

  function ReportChange(s: State, c: nat, kind: Kind, pc: Pc): Change
    requires Reporting(pc)
  {
    match pc.stage
    case BeforeSwap => Plain(c, kind, AtStage(pc, if s.createdReported then Ready else MustCreate)).(swaps := true)
    case MustCreate => Logging(c, kind, AtStage(pc, Ready), Created(if s.lock.Semaphore? then s.lock.initial else 0))
    case Ready =>
      match pc
      case Requesting(_) => Logging(c, kind, Waiting, Requested(c, kind))
      case Granted(_) => Logging(c, kind, Held, Acquired(c, kind))
      case Adding(_) => Logging(c, kind, Gone, PermitsAdded(if kind.Add? then kind.n else 0))
  }

  function MoveChange(s: State, c: nat, kind: Kind, pc: Pc, move: Move): Option<Change> {
    match move
    case PollPending =>
      if pc == Fresh then Some(Plain(c, kind, Requesting(FirstStage(s.lock))))
      else if pc == Waiting then Some(Plain(c, kind, Waiting)) else None
    case PollReady =>
      if (pc == Fresh || pc == Waiting) && CanServe(s, kind)
      then Some(Plain(c, kind, Granted(FirstStage(s.lock)))) else None
    case Report => if Reporting(pc) then Some(ReportChange(s, c, kind, pc)) else None
    case DropFuture =>
      if pc == Fresh then Some(Plain(c, kind, Gone))
      else if pc == Waiting then Some(Logging(c, kind, Gone, Dropped(c))) else None
    case Forget => if pc == Held && kind.Permits? then Some(Plain(c, kind, Forgotten)) else None
    case DropGuard => if pc == Held then Some(Logging(c, kind, Returning, Released(c, kind))) else None
    case GiveBack => if pc == Returning then Some(Plain(c, kind, Gone)) else None
  }

  function ChangeOf(s: State, a: Action): Option<Change> {
    match a
    case Call(kind) => if Fits(s.lock, kind) then Some(Plain(|s.callers|, kind, Fresh)) else None
    case TryAcquire(kind) =>
      if Fits(s.lock, kind) && CanServe(s, kind)
      then Some(Plain(|s.callers|, kind, Granted(FirstStage(s.lock)))) else None
    case AddPermits(n) =>
      if s.lock.RwLock? then None else Some(Plain(|s.callers|, Add(n), Adding(BeforeSwap)).(added := n))
    case On(c, move) => if c < |s.callers| then MoveChange(s, c, s.callers[c].kind, s.callers[c].pc, move) else None
  }

  function Apply(s: State, ch: Change): State {
    State(s.lock, s.added + ch.added,
          if ch.c < |s.callers| then s.callers[ch.c := ch.caller] else s.callers + [ch.caller],
          s.createdReported || ch.swaps,
          if ch.event.Some? then s.log + [ch.event.value] else s.log)
  }

  function Step(s: State, a: Action): Option<State> {
    match ChangeOf(s, a)
    case None => None
    case Some(ch) => Some(Apply(s, ch))
  }

  function Reach(lock: Primitive, actions: seq<Action>): Option<State> {
    Runs.Execute(Step, Start(lock), actions)
  }

  // ---------- the log refines the real lock ----------

  function HoldersAfter(holders: set<(nat, Kind)>, e: Event): set<(nat, Kind)> {
    if e.Acquired? then holders + {(e.waiter, e.kind)}
    else if e.Released? then holders - {(e.waiter, e.kind)}
    else holders
  }

  function PermitChange(e: Event): int {
    if e.Acquired? && e.kind.Permits? then e.kind.n
    else if e.Released? && e.kind.Permits? then 0 - e.kind.n
    else 0
  }

  /** What the log says is held: acquired and not released. */
  function LoggedHolders(log: seq<Event>): set<(nat, Kind)> {
    if log == [] then {} else HoldersAfter(LoggedHolders(log[..|log| - 1]), log[|log| - 1])
  }

  /** Permits the log says are out. */
  function LoggedPermits(log: seq<Event>): int {
    if log == [] then 0 else LoggedPermits(log[..|log| - 1]) + PermitChange(log[|log| - 1])
  }

  predicate OwnsLogged(c: Caller) {
    c.pc == Held || c.pc == Forgotten
  }

  function LoggedSize(c: Caller): nat {
    if OwnsLogged(c) then Size(c) else 0
  }

  predicate CallerFits(lock: Primitive, c: Caller) {
    if c.kind.Add? then lock.Semaphore? && (c.pc.Adding? || c.pc == Gone) else Fits(lock, c.kind) && !c.pc.Adding?
  }

  ghost predicate KindsFit(s: State) {
    forall c :: 0 <= c < |s.callers| ==> CallerFits(s.lock, s.callers[c])
  }

  ghost predicate RealLockIsSound(s: State) {
    && (s.lock.Semaphore? ==> Sum(s.callers, RealSize) <= s.lock.initial + s.added)
    && (s.lock.RwLock? ==> forall c, d :: 0 <= c < d < |s.callers| && OwnsReal(s.callers[c]) && OwnsReal(s.callers[d])
                                          ==> Compatible(s.callers[c].kind, s.callers[d].kind))
  }

  ghost predicate PermitsMatch(s: State) {
    LoggedPermits(s.log) == Sum(s.callers, LoggedSize)
  }

  ghost predicate IsLoggedHolder(s: State, w: nat, k: Kind) {
    w < |s.callers| && s.callers[w].kind == k && OwnsLogged(s.callers[w])
  }

  ghost predicate HoldersMatch(s: State) {
    forall w: nat, k :: (w, k) in LoggedHolders(s.log) <==> IsLoggedHolder(s, w, k)
  }

  ghost predicate Inv(s: State) {
    KindsFit(s) && RealLockIsSound(s) && PermitsMatch(s) && HoldersMatch(s)
  }

  lemma {:induction false} SumUpdate(callers: seq<Caller>, c: nat, new_: Caller, f: Caller -> nat)
    requires c < |callers|
    ensures Sum(callers[c := new_], f) == Sum(callers, f) - f(callers[c]) + f(new_)
    decreases |callers|
  {
    var n := |callers| - 1;
    if c == n {
      assert callers[c := new_][..n] == callers[..n];
    } else {
      assert callers[c := new_][..n] == callers[..n][c := new_];
      SumUpdate(callers[..n], c, new_, f);
    }
  }

  lemma {:induction false} SumBounded(callers: seq<Caller>, f: Caller -> nat, g: Caller -> nat)
    requires forall c :: f(c) <= g(c)
    ensures Sum(callers, f) <= Sum(callers, g)
    decreases |callers|
  {
    if callers != [] {
      SumBounded(callers[..|callers| - 1], f, g);
    }
  }

  lemma LogAppend(log: seq<Event>, e: Event)
    ensures LoggedHolders(log + [e]) == HoldersAfter(LoggedHolders(log), e)
    ensures LoggedPermits(log + [e]) == LoggedPermits(log) + PermitChange(e)
  {
    assert (log + [e])[..|log|] == log;
  }

  lemma SumChange(s: State, ch: Change, f: Caller -> nat)
    ensures Sum(Apply(s, ch).callers, f) ==
            Sum(s.callers, f) + f(ch.caller) - if ch.c < |s.callers| then f(s.callers[ch.c]) else 0
  {
    if ch.c < |s.callers| {
      SumUpdate(s.callers, ch.c, ch.caller, f);
    } else {
      assert (s.callers + [ch.caller])[..|s.callers|] == s.callers;
    }
  }

  /** What every step's change looks like: it keeps the caller's request, takes the real
      lock only when that can be served, and logs `acquired` or `released` for exactly
      the caller whose logged holding begins or ends. */
  ghost predicate WellShaped(s: State, ch: Change) {
    && ch.c <= |s.callers| && CallerFits(s.lock, ch.caller)
    && (ch.c < |s.callers| ==> s.callers[ch.c].kind == ch.caller.kind)
    && (OwnsReal(ch.caller) ==> (ch.c < |s.callers| && OwnsReal(s.callers[ch.c])) || CanServe(s, ch.caller.kind))
    && EventFits(ch, ch.c < |s.callers| && OwnsLogged(s.callers[ch.c]))
  }

  predicate EventFits(ch: Change, owned: bool) {
    match ch.event
    case Some(Acquired(w, k)) => w == ch.c && k == ch.caller.kind && !owned && OwnsLogged(ch.caller)
    case Some(Released(w, k)) => w == ch.c && k == ch.caller.kind && owned && !OwnsLogged(ch.caller)
    case _ => OwnsLogged(ch.caller) == owned
  }

  lemma MoveShape(s: State, c: nat, move: Move)
    requires KindsFit(s) && c < |s.callers|
    requires MoveChange(s, c, s.callers[c].kind, s.callers[c].pc, move).Some?
    ensures WellShaped(s, MoveChange(s, c, s.callers[c].kind, s.callers[c].pc, move).value)
  {
    assert CallerFits(s.lock, s.callers[c]);
  }

  lemma ChangeShape(s: State, a: Action)
    requires KindsFit(s) && ChangeOf(s, a).Some?
    ensures WellShaped(s, ChangeOf(s, a).value)
  {
    if a.On? {
      MoveShape(s, a.c, a.move);
    }
  }

  lemma SemaphoreChange(s: State, ch: Change)
    requires WellShaped(s, ch) && RealLockIsSound(s) && s.lock.Semaphore?
    ensures RealLockIsSound(Apply(s, ch))
  {
    SumChange(s, ch, RealSize);
  }

  lemma RwLockChange(s: State, ch: Change)
    requires WellShaped(s, ch) && RealLockIsSound(s) && s.lock.RwLock?
    ensures RealLockIsSound(Apply(s, ch))
  {
  }

  lemma KindsChange(s: State, ch: Change)
    requires WellShaped(s, ch) && KindsFit(s)
    ensures KindsFit(Apply(s, ch))
  {
  }

  function EventChange(e: Option<Event>): int {
    if e.Some? then PermitChange(e.value) else 0
  }

  lemma SizeChange(s: State, ch: Change)
    requires WellShaped(s, ch)
    ensures var before := if ch.c < |s.callers| then LoggedSize(s.callers[ch.c]) else 0;
            LoggedSize(ch.caller) - before == EventChange(ch.event)
  {
  }

  lemma LogChange(s: State, ch: Change)
    ensures LoggedPermits(Apply(s, ch).log) == LoggedPermits(s.log) + EventChange(ch.event)
    ensures LoggedHolders(Apply(s, ch).log) ==
            if ch.event.Some? then HoldersAfter(LoggedHolders(s.log), ch.event.value) else LoggedHolders(s.log)
  {
    if ch.event.Some? {
      LogAppend(s.log, ch.event.value);
    }
  }

  lemma PermitsChange(s: State, ch: Change)
    requires WellShaped(s, ch) && PermitsMatch(s)
    ensures PermitsMatch(Apply(s, ch))
  {
    SumChange(s, ch, LoggedSize);
    SizeChange(s, ch);
    LogChange(s, ch);
  }

  lemma OwnerChange(s: State, ch: Change, w: nat, k: Kind)
    requires WellShaped(s, ch)
    ensures IsLoggedHolder(Apply(s, ch), w, k) <==>
            || (IsLoggedHolder(s, w, k) && ch.event != Some(Released(w, k)))
            || ch.event == Some(Acquired(w, k))
  {
  }

  lemma HolderChange(s: State, ch: Change, w: nat, k: Kind)
    requires WellShaped(s, ch) && ((w, k) in LoggedHolders(s.log) <==> IsLoggedHolder(s, w, k))
    ensures (w, k) in LoggedHolders(Apply(s, ch).log) <==> IsLoggedHolder(Apply(s, ch), w, k)
  {
    LogChange(s, ch);
    OwnerChange(s, ch, w, k);
  }

  lemma ChangeKeepsInv(s: State, ch: Change)
    requires WellShaped(s, ch) && Inv(s)
    ensures Inv(Apply(s, ch))
  {
    KindsChange(s, ch);
    if s.lock.Semaphore? {
      SemaphoreChange(s, ch);
    } else {
      RwLockChange(s, ch);
    }
    PermitsChange(s, ch);
    forall w: nat, k
      ensures (w, k) in LoggedHolders(Apply(s, ch).log) <==> IsLoggedHolder(Apply(s, ch), w, k)
    {
      HolderChange(s, ch, w, k);
    }
  }

  lemma Reachable(lock: Primitive, actions: seq<Action>)
    requires Reach(lock, actions).Some?
    ensures Inv(Reach(lock, actions).value) && Reach(lock, actions).value.lock == lock
  {
    var inv := (s: State) => Inv(s) && s.lock == lock;
    forall s, a | inv(s) && Step(s, a).Some?
      ensures inv(Step(s, a).value)
    {
      ChangeShape(s, a);
      ChangeKeepsInv(s, ChangeOf(s, a).value);
    }
    Runs.Preserved(Step, inv, Start(lock), actions);
  }

  /** The semaphore's log never shows more permits out than the semaphore was given,
      forgotten permits included. */
  lemma LoggedPermitsWithinCapacity(initial: nat, actions: seq<Action>)
    requires Reach(Semaphore(initial), actions).Some?
    ensures var s := Reach(Semaphore(initial), actions).value;
            0 <= LoggedPermits(s.log) <= initial + s.added
  {
    Reachable(Semaphore(initial), actions);
    SumBounded(Reach(Semaphore(initial), actions).value.callers, LoggedSize, RealSize);
  }

  /** The read-write lock's log never shows a writer together with anyone else. */
  lemma LoggedHoldersExclude(actions: seq<Action>, w: nat, k: Kind, v: nat, l: Kind)
    requires Reach(RwLock, actions).Some?
    requires var log := Reach(RwLock, actions).value.log;
             (w, k) in LoggedHolders(log) && (v, l) in LoggedHolders(log) && w != v
    ensures k == RwRead && l == RwRead
  {
    Reachable(RwLock, actions);
    var s := Reach(RwLock, actions).value;
    assert IsLoggedHolder(s, w, k) && IsLoggedHolder(s, v, l);
    assert OwnsReal(s.callers[w]) && OwnsReal(s.callers[v]);
  }

  // ---------- the grammar of one waiter's events ----------

  datatype Tag = Req | Acq | Rel | Drop

  function TagFor(e: Event, w: nat): seq<Tag> {
    match e
    case Requested(v, _) => if v == w then [Req] else []
    case Acquired(v, _) => if v == w then [Acq] else []
    case Released(v, _) => if v == w then [Rel] else []
    case Dropped(v) => if v == w then [Drop] else []
    case _ => []
  }

  function WaiterLog(log: seq<Event>, w: nat): seq<Tag> {
    if log == [] then [] else WaiterLog(log[..|log| - 1], w) + TagFor(log[|log| - 1], w)
  }

  /** The events a waiter has reported by the time it is at `pc`. */
  predicate Reported(pc: Pc, tags: seq<Tag>) {
    match pc
    case Fresh => tags == []
    case Requesting(_) => tags == []
    case Adding(_) => tags == []
    case Waiting => tags == [Req]
    case Granted(_) => tags == [] || tags == [Req]
    case Held => tags == [Acq] || tags == [Req, Acq]
    case Forgotten => tags == [Acq] || tags == [Req, Acq]
    case Returning => tags == [Acq, Rel] || tags == [Req, Acq, Rel]
    case Gone => tags == [] || tags == [Req, Drop] || tags == [Acq, Rel] || tags == [Req, Acq, Rel]
  }

  ghost predicate GrammarHolds(s: State, w: nat) {
    if w < |s.callers| then Reported(s.callers[w].pc, WaiterLog(s.log, w)) else WaiterLog(s.log, w) == []
  }

  lemma GrammarShape(s: State, a: Action, tags: seq<Tag>)
    requires ChangeOf(s, a).Some?
    ensures var ch := ChangeOf(s, a).value;
            && ch.c <= |s.callers|
            && (forall w :: w != ch.c && ch.event.Some? ==> TagFor(ch.event.value, w) == [])
            && ((if ch.c < |s.callers| then Reported(s.callers[ch.c].pc, tags) else tags == []) ==>
                Reported(ch.caller.pc, tags + if ch.event.Some? then TagFor(ch.event.value, ch.c) else []))
  {
    assert tags + [] == tags;
  }

  lemma GrammarStep(s: State, a: Action, w: nat)
    requires GrammarHolds(s, w) && Step(s, a).Some?
    ensures GrammarHolds(Step(s, a).value, w)
  {
    var ch := ChangeOf(s, a).value;
    GrammarShape(s, a, WaiterLog(s.log, w));
    if ch.event.Some? {
      assert (s.log + [ch.event.value])[..|s.log|] == s.log;
    }
    assert WaiterLog(s.log, w) + [] == WaiterLog(s.log, w);
  }

  predicate InGrammar(tags: seq<Tag>) {
    tags <= [Req, Acq, Rel] || tags <= [Acq, Rel] || tags == [Req, Drop]
  }

  lemma ReportedInGrammar(pc: Pc, tags: seq<Tag>)
    requires Reported(pc, tags)
    ensures InGrammar(tags)
  {
    var full := [Req, Acq, Rel];
    assert full[..1] == [Req] && full[..2] == [Req, Acq] && [Acq, Rel][..1] == [Acq];
  }

  lemma GrammarReached(lock: Primitive, actions: seq<Action>, w: nat)
    requires Reach(lock, actions).Some?
    ensures GrammarHolds(Reach(lock, actions).value, w)
  {
    var inv := (s: State) => GrammarHolds(s, w);
    forall s, a | inv(s) && Step(s, a).Some?
      ensures inv(Step(s, a).value)
    {
      GrammarStep(s, a, w);
    }
    Runs.Preserved(Step, inv, Start(lock), actions);
  }

  /** Each waiter's events are a prefix of `requested? acquired released`, or exactly
      `requested dropped`, over every sequence of polls, cancellations, forgets and drops. */
  lemma WaiterGrammar(lock: Primitive, actions: seq<Action>, w: nat)
    requires Reach(lock, actions).Some?
    ensures InGrammar(WaiterLog(Reach(lock, actions).value.log, w))
  {
    GrammarReached(lock, actions, w);
    var s := Reach(lock, actions).value;
    if w < |s.callers| {
      ReportedInGrammar(s.callers[w].pc, WaiterLog(s.log, w));
    }
  }

  // ---------- one future and one permit, as objects ----------

  /** The future of one acquire call. `reported` is what it has told the hook. */
  class AcquireFuture {
    const waiter: nat
    const kind: Kind
    var requestedEmitted: bool
    var resolved: bool
    var reported: seq<Event>

    constructor (waiter: nat, kind: Kind)
      ensures Valid() && this.waiter == waiter && this.kind == kind && reported == [] && !resolved && !requestedEmitted
    {
      this.waiter, this.kind := waiter, kind;
      requestedEmitted, resolved, reported := false, false, [];
    }

    ghost predicate Valid()
      reads this
    {
      reported == (if requestedEmitted then [Requested(waiter, kind)] else [])
                  + (if resolved then [Acquired(waiter, kind)] else [])
    }

    /** Polls once; `ready` is the real future's answer. Contention is reported the first
        time only. */
    method Poll(ready: bool) returns (isReady: bool)
      requires Valid() && !resolved
      modifies this
      ensures Valid() && isReady == resolved == ready
      ensures requestedEmitted == (old(requestedEmitted) || !ready)
      ensures reported == old(reported) +
                if ready then [Acquired(waiter, kind)]
                else if old(requestedEmitted) then [] else [Requested(waiter, kind)]
    {
      if !ready {
        if !requestedEmitted {
          requestedEmitted := true;
          reported := reported + [Requested(waiter, kind)];
        }
        return false;
      }
      resolved := true;
      reported := reported + [Acquired(waiter, kind)];
      return true;
    }

    /** Dropping reports a waiter that was announced and never served, and nothing else. */
    method DropFuture()
      requires Valid()
      modifies this`reported
      ensures reported == old(reported) + if requestedEmitted && !resolved then [Dropped(waiter)] else []
      ensures InGrammar(WaiterLog(reported, waiter))
    {
      if requestedEmitted && !resolved {
        reported := reported + [Dropped(waiter)];
        assert reported == [Requested(waiter, kind), Dropped(waiter)];
      } else if requestedEmitted {
        assert reported == [Requested(waiter, kind), Acquired(waiter, kind)];
      } else {
        assert reported == if resolved then [Acquired(waiter, kind)] else [];
      }
      FutureTags(waiter, kind, reported);
    }
  }

  lemma FutureTags(w: nat, kind: Kind, log: seq<Event>)
    requires || log == [] || log == [Acquired(w, kind)] || log == [Requested(w, kind), Acquired(w, kind)]
             || log == [Requested(w, kind), Dropped(w)]
    ensures InGrammar(WaiterLog(log, w))
  {
    if log != [] {
      var first := log[..1];
      assert first[..0] == [] && WaiterLog(first, w) == TagFor(log[0], w);
      if |log| == 2 {
        assert log[..1] == first && WaiterLog(log, w) == TagFor(log[0], w) + TagFor(log[1], w);
        ReportedInGrammar(if log[1].Acquired? then Held else Gone, WaiterLog(log, w));
      } else {
        assert log == first;
        ReportedInGrammar(Held, WaiterLog(log, w));
      }
    }
  }

  /** The guard of a served acquire call; `inner` is whether it still owns its real permit. */
  class Permit {
    const waiter: nat
    const kind: Kind
    var inner: bool
    var reported: seq<Event>

    constructor (waiter: nat, kind: Kind, reported: seq<Event>)
      ensures this.waiter == waiter && this.kind == kind && inner && this.reported == reported
    {
      this.waiter, this.kind, this.reported, inner := waiter, kind, reported, true;
    }

    /** Forgetting gives up the permit without a report, now or when the guard goes away. */
    method Forget()
      modifies this
      ensures !inner && reported == old(reported)
    {
      inner := false;
      DropGuard();
    }

    method DropGuard()
      modifies this
      ensures !inner
      ensures reported == old(reported) + if old(inner) then [Released(waiter, kind)] else []
    {
      if inner {
        reported := reported + [Released(waiter, kind)];
      }
      inner := false;
    }
  }
}
