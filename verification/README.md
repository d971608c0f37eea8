# Laplace: models and proofs

A Dafny model of the logic at the core of Laplace, the concurrency verifier for Rust programs, with
proofs of what that logic is for. Laplace rewrites a program's concurrency primitives to observing
wrappers, captures the events they report, and judges the captured trace. The model covers

* the judgement: the lock-order scan over a trace, its static sibling over harness specs, and what a
  clean verdict implies for every schedule of the captured programs (`LockOrder`, `LockReplay`,
  `LockSemantics`, `LockLimits`, `HarnessSpec`);
* the capture: sessions, resource ids, the semaphore and read-write lock seams, observed tasks, task
  completion, join attribution, the versioned cell and its cache, the virtual clock
  (`CaptureSession`, `LazyIds`, `LockSeam`, `SeamMoves`, `CreationReport`, `PermitLog`, `ObservedTasks`, `TaskCompletion`,
  `JoinAttribution`, `VersionedCell`, `VirtualClock`);
* the rewriting: `use`-alias collection, path resolution and the rewrite tables of the model
  attribute, through nested modules (`UseAliases`, `ModelRewrite`, `ModelResolution`, `Scoping`,
  `ModelScopes`, `ModelLaws`, `ModelCoverage`, `ModelCompleteness`, `ModelHonesty`, `ModelPasses`,
  `ModelDepartures`);
* two protocols the repository verifies with itself: the capacity-one lease pool and the packet queue
  (`LeasePool`, `PacketQueue`).

Protocols are state machines: a step function from a state and an action to an optional next state,
one atomic access to shared state per step, run over arbitrary action sequences by `Runs.Execute`.
Theorems about them hold for every action sequence that runs, so for every interleaving of any number
of callers. Tokio and std primitives appear only as specifications: a lock with its holders, a notify
with one stored permit, a watch with a version. Code that updates fields or works by loops is also
modelled as classes and methods, whose contracts are tied to the same functions. `Options`, `Words`,
`Runs` and `RustSyntax` hold the shared vocabulary.

Verify the whole project with `dafny verify dfyconfig.toml`.

## Results at a glance

* A trace is reported iff it contains two acquisitions in opposite order whose modes conflict both
  ways, whatever the interleaving. A clean verdict means deadlock freedom in every schedule for at most
  two threads, and for no larger number (`CleanIsSafeUpToTwo`): a deadlock of clean programs is always a
  ring of at least three threads (`DeadlockIsLongRing`). A mutual wait of two threads is ruled out for
  any number, needing only that no thread takes exclusively what it holds shared; two that do are missed
  (`UpgradeIsMissed`).
* On every interleaving of a spec, detection by the static check implies a report by the trace check iff
  two threads retaking one resource comes with a real reversal, and a report implies detection iff a
  thread that contains both orders comes with two threads at odds or retaking
  (`StaticAgreesWithTrace`, `RetakeDisagrees`, `SelfReversalDisagrees`).
* The lease pool loses no wake-up and serves every acquirer. With the suppressed-wake fixture an acquirer
  is served iff the slot was free when it checked (`SuppressedServedIffFree`); the queue's fixture lets
  `drain` return iff nothing was pushed (`SuppressedReturnsIffEmpty`).
* The lock seams' log never shows more permits out than exist, nor a writer beside anyone. It can come to
  show more out than it shows given iff an addition has yet to be reported (`ExceedsIffUnreported`).
  Creation is reported once. With nothing logged yet, another event can be logged ahead of it iff two callers are in
  a report (`OvertakenIffOverlapping`, `OverlappingCallsReportLate`).
* Observing a task changes no result of its handle. A finished task's handle is always woken. Join events
  are the ones the poll brackets call for iff each join inside a poll follows a poll start with no other
  boundary in between (`AttributionIsExact`, `NestedPollDropsJoin`).
* The bound on an interval's ticks holds up to `now` iff `now` is below u64::MAX
  (`TickBoundIffBelowTop`).
* Rewriting a program through its aliases is rewriting its fully qualified form. That form is defined
  without any table: paths are written out by what names mean in their nested scopes (`RustMeaning`),
  paths from the root are left alone, and signatures are outside their bodies. It holds for programs in
  which no name is hidden from an alias in force; a name's alias is its meaning exactly then
  (`AliasIsMeaning`). With the `use` declarations kept it also asks that `tokio` is no alias of anything
  else: resolving twice is resolving once exactly then (`CanonicalIdempotent`,
  `ReboundTokioBreaksKeptForm`). With them dropped it also asks, for the markers, that no alias is called
  `laplace_sdk` unless it stands for a path that raises no marker; that is exact too
  (`MarkersFitExactly`, `SpawnPassAddsMarker`).
* Every primitive that has a model is replaced by the model named after it, wherever it is named in full
  (`ModelCoverage`). After rewriting, no call, type or macro with a model is left, at any depth and in any
  function of any nested module; everything but paths stays as it was, and in front of each body stands one
  marker for each primitive raised in it and no other (`ModIsDone`).
* Code that raised no marker holds, once rewritten, no recognised unmodelled primitive in its calls and
  types. It holds none anywhere iff no plain path expression, and no macro name without a rule, was one
  (`EverythingIsModelledIff`): those are not visited, so `iter.map(tokio::spawn)` is neither rewritten nor
  marked (`SpawnValueIsUnmarked`). A std primitive imported under another name
  (`use std::sync::Condvar as C; C::new()`) is not recognised, and raises no marker either
  (`RenamedStdIsUnmarked`).
* Different primitives stay different at every depth, generic arguments included
  (`WholeTypesStayDistinct`, `WholeCallsStayDistinct`).

Where the code departs from its documentation or from Rust's resolution the model follows the code:
`canonicalize` ignores a leading `::` (`LeadingColonIsIgnored`, `ExternalTimeIsRewritten`); a `fn`'s
signature is rewritten with the aliases of its body, which makes no difference iff the body adds none
that was not there (`SignatureSeesBodyAliases`, `SignatureUnaffectedIff`); an enclosing alias of a
locally declared name is still applied (`DeclaredSeesEnclosing`, `EnclosingAliasOutlivesItem`); and so is
an enclosing alias of a name that an inner `use` of another crate binds, although a nested `use` is
documented to shadow (`InnerStdUseIsIgnored`).

## Model

| member | source | states |
|---|---|---|
| LockOrder.RecordAcquisition | crates/laplace-probe-sdk/src/session.rs:457-476 | one acquisition against the recorded edges: either all its edges join an edge set still without a cycle, or the edge of the first hold that closes a cycle with one recorded before is reported |
| LockOrder.FindLockOrderCycle | crates/laplace-probe-sdk/src/session.rs:421-489 | returns a cycle iff the trace's edges contain an opposed pair, despite the early return; the cycle is that of the first event to close one, with the first hold it closes one with |
| LockReplay.ReportedIffOpposite | crates/laplace-probe-sdk/src/session.rs:428-475 | exactly, read off the six lock events: a report iff two of them take two resources in opposite orders, each thread having the one the other takes, and of the two accesses to each resource at least one writes |
| LockReplay.ReplayIsHeld | crates/laplace-probe-sdk/src/session.rs:428-486 | the scan's lists hold exactly what the events say each thread reads and writes: the first mode until any release |
| LockOrder.RunVerificationFrom | crates/laplace-probe-sdk/src/session.rs:391-408 | verdict Clean iff no opposed pair; a bug carries the target's name and a real cycle; the event count is the trace's length |
| LockOrder.CycleIffTwoAcquisitions | crates/laplace-probe-sdk/src/session.rs:417-488 | exact characterisation: a report iff one event takes r holding p and one takes p holding r, p ≠ r, both waits conflicting in mode |
| LockOrder.EdgesAreThreadEdges | crates/laplace-probe-sdk/src/session.rs:421-489 | the trace's edges are exactly those of its per-thread lock programs |
| LockOrder.VerdictIgnoresInterleaving | crates/laplace-probe-sdk/src/session.rs:421-489 | traces with equal per-thread projections get equal edges and equal verdicts |
| LockOrder.BugPersists | crates/laplace-probe-sdk/src/session.rs:421-489 | a bug on a prefix is a bug on every extension |
| LockOrder.ReadOnlyIsClean | crates/laplace-probe-sdk/src/session.rs:411-419 | a trace that takes only read locks is clean |
| LockOrder.RankedIsClean | crates/laplace-probe-sdk/src/session.rs:421-489 | a trace that takes resources in strictly increasing rank is clean |
| LockSemantics.Reachable | crates/laplace-probe-sdk/src/session.rs:411-489 | for any programs: in every state every schedule reaches, the grants under reader/writer locking are what the programs took and did not release, and only readers share |
| LockSemantics.GrantsAreHeld | crates/laplace-probe-sdk/src/session.rs:457-486 | for a program that never takes what it holds, the grants are exactly what the scan's held list says |
| LockSemantics.NoMutualWait | crates/laplace-probe-sdk/src/session.rs:417-489 | any number of clean programs that never take exclusively what they hold shared: no run reaches two threads each holding, in conflicting mode, what the other is about to take |
| LockSemantics.TwoThreadsNeverStuck | crates/laplace-probe-sdk/src/session.rs:411-489 | two clean disciplined programs: every reachable state is final or has an enabled step |
| LockSemantics.TwoThreadsFinish | crates/laplace-probe-sdk/src/session.rs:411-489 | from every invariant state some continuation runs both to the end |
| LockSemantics.RankedNeverStuck | crates/laplace-probe-sdk/src/session.rs:421-489 | programs that respect a strict rank never get stuck, for any number of threads |
| LockSemantics.VerdictIsAboutPrograms | crates/laplace-probe-sdk/src/session.rs:421-489 | the scan's edges of a trace are the edges of the programs it records |
| LockSemantics.CleanTwoThreadTraceNeverStuck | crates/laplace-probe-sdk/src/session.rs:411-489 | deadlock freedom of a clean two-thread trace in all interleavings |
| LockSemantics.CleanTraceNoMutualWait | crates/laplace-probe-sdk/src/session.rs:417-489 | pairwise soundness of a clean trace, any number of threads |
| LockSemantics.DeadlockIsLongRing | crates/laplace-probe-sdk/src/session.rs:450-475 | every deadlock of clean disciplined programs is a ring of at least three distinct threads, each waiting for the next |
| LockLimits.RingIsMissed | crates/laplace-probe-sdk/src/session.rs:466-475 | the limit of the check: for any three resources and any n ≥ 3 threads, disciplined programs that are clean and reach a deadlock |
| LockLimits.CleanIsSafeUpToTwo | crates/laplace-probe-sdk/src/session.rs:411-489 | exactly: a clean verdict on n threads rules out deadlock in every schedule iff n ≤ 2 |
| LockLimits.UpgradeIsMissed | crates/laplace-probe-sdk/src/session.rs:478-482 | for any resource, two threads that read it and then write it are clean, wait for each other, and cannot move |
| HarnessSpec.HeldAcquisitionPairs | crates/laplace-interfaces/src/domain/harness/spec.rs:128-151 | the recorded pairs are exactly the order edges of the thread's lock program plus (r, r) for each resource taken while held |
| HarnessSpec.RecordedMeans | crates/laplace-interfaces/src/domain/harness/spec.rs:128-151 | exactly, read off the actions: a pair is recorded iff some action takes its second resource while the thread has the first |
| HarnessSpec.PairWithHeld | crates/laplace-interfaces/src/domain/harness/spec.rs:134-138 | an acquisition adds exactly the pairs of each held resource with the new one |
| HarnessSpec.AcquisitionPairsConflict | crates/laplace-interfaces/src/domain/harness/spec.rs:117-126 | true iff some pair of one thread is reversed in the other |
| HarnessSpec.DetectsAbbaDeadlock | crates/laplace-interfaces/src/domain/harness/spec.rs:105-115 | true iff two different threads contain reversed pairs |
| HarnessSpec.AbbaMeans | crates/laplace-interfaces/src/domain/harness/spec.rs:105-151 | detection iff two threads take two distinct resources in opposite orders or both retake one resource |
| HarnessSpec.ReportMeans | crates/laplace-probe-sdk/src/session.rs:421-489 | on every interleaving of a spec, a report iff two threads, or one thread by itself, contain opposite orders |
| HarnessSpec.StaticAgreesWithTrace | crates/laplace-interfaces/src/domain/harness/spec.rs:105-151 | on every interleaving, each direction exactly: detection implies a report iff a shared retake comes with a reversal; a report implies detection iff a self-reversal comes with a crossed reversal or a shared retake |
| HarnessSpec.RetakeDisagrees | crates/laplace-interfaces/src/domain/harness/spec.rs:128-151 | two threads that each take one resource twice are detected and never reported |
| HarnessSpec.SelfReversalDisagrees | crates/laplace-interfaces/src/domain/harness/spec.rs:105-115 | a lone thread that contains both orders is reported and never detected |
| LeasePool.PoolState.TryLease | examples/nonvendored-async-poc/src/lib.rs:105-114 | leases a free slot under the next generation, saturating, and refuses a leased one unchanged |
| LeasePool.PoolState.TryRelease | examples/nonvendored-async-poc/src/lib.rs:160-170 | frees the slot iff the lease is the current one; a stale lease changes nothing |
| LeasePool.PoolState.Expire | examples/nonvendored-async-poc/src/lib.rs:216-221 | marks the slot expired iff it is still idle in the armed generation |
| LeasePool.AtMostOneLease | examples/nonvendored-async-poc/src/lib.rs:103-127 | over all runs under either policy at most one task holds a lease, and it is the current, releasable one |
| LeasePool.GenerationsAreFresh | examples/nonvendored-async-poc/src/lib.rs:105-114 | two grants carry the same generation iff it is the saturated maximum |
| LeasePool.OneGrantEach | examples/nonvendored-async-poc/src/lib.rs:103-127 | in every run there are as many grants as tasks that have or had the lease |
| LeasePool.LeaseAndRelease | examples/nonvendored-async-poc/src/lib.rs:103-184 | in every reachable state: a free slot is granted under a new generation to whoever checks it, a holder frees it, and the release wakes the first waiter |
| LeasePool.NoLostWakeup | examples/nonvendored-async-poc/src/lib.rs:103-127 | Normal policy: whenever the slot is free and someone is parked, some task is about to re-check or mid-release |
| LeasePool.MoveUsesWork | examples/nonvendored-async-poc/src/lib.rs:103-202 | every move of a task strictly uses up a measure of outstanding work |
| LeasePool.MovesAreBounded | examples/nonvendored-async-poc/src/lib.rs:103-202 | without new calls only boundedly many moves are possible |
| LeasePool.EveryAcquirerIsServed | examples/nonvendored-async-poc/src/lib.rs:103-202 | Normal policy: when no move is left every acquirer has returned its lease, and there was one grant for each |
| LeasePool.SuppressedParkedForGood | examples/nonvendored-async-poc/src/lib.rs:176-184 | with the wake suppressed, in every run a parked acquirer never leaves |
| LeasePool.SuppressedServedIffFree | examples/nonvendored-async-poc/src/lib.rs:103-184 | with the wake suppressed, in every run an acquirer is served iff the slot was free when it checked, and otherwise turned away for good |
| LeasePool.SuppressedWakeIsLost | examples/nonvendored-async-poc/src/lib.rs:176-184 | the fault fixture has a run that ends with a free slot, a parked acquirer and nothing able to move |
| LazyIds.IdCounter.Next | crates/laplace-model-rt/src/hooks.rs:697-703 | hands out the old value and counts up; once exhausted it hands out nothing and never wraps |
| LazyIds.AsyncResourceId.CompareExchange | crates/laplace-model-rt/src/hooks.rs:752-758 | sets the cell only if it held the expected value, and returns what it held |
| LazyIds.AsyncResourceId.Get | crates/laplace-model-rt/src/hooks.rs:746-759 | keeps an assigned id; otherwise takes the counter's next id and stores it |
| LazyIds.Reachable | crates/laplace-model-rt/src/hooks.rs:697-760 | in every interleaving: cells below the counter and pairwise distinct, claimed ids unused, returned ids are the cells' |
| LazyIds.GetsAgree | crates/laplace-model-rt/src/hooks.rs:746-759 | two completed gets return the same id iff they are on the same cell, and it is nonzero |
| LazyIds.GetsAreAnswered | crates/laplace-model-rt/src/hooks.rs:746-759 | in every reachable state a get on a cell with an id is answered with it at once; otherwise it allocates, unless the counter is exhausted, and its exchange answers with the id the cell then has |
| LazyIds.AllocationsAreFresh | crates/laplace-model-rt/src/hooks.rs:697-703 | below exhaustion the callers without a cell and the eager constructor get the counter's next |
| LazyIds.OtherIdsAreSeparate | crates/laplace-model-rt/src/hooks.rs:697-703 | ids allocated without a cell meet neither each other nor a cell's id |
| LazyIds.IdsAreForever | crates/laplace-model-rt/src/hooks.rs:746-759 | a cell's id never changes once set; the counter never goes back or wraps |
| LockSeam.LoggedPermitsWithinCapacity | crates/laplace-model-rt/src/async_semaphore.rs:105-113 | over all runs, permits logged acquired and not released, forgotten ones included, never exceed initial plus added |
| LockSeam.LoggedHoldersExclude | crates/laplace-model-rt/src/async_rwlock.rs:192-328 | any two waiters the log shows as holders at once are both readers |
| SeamMoves.SemaphoreServes | crates/laplace-model-rt/src/async_semaphore.rs:166-210 | a semaphore serves a request iff it fits into the permits nobody has |
| SeamMoves.RwLockServes | crates/laplace-model-rt/src/async_rwlock.rs:92-131 | a read-write lock serves a reader iff no writer has it, and a writer iff nobody has |
| SeamMoves.Polls | crates/laplace-model-rt/src/async_semaphore.rs:240-286 | a waiting call takes the lock when it can be served, and announces itself when it first cannot |
| SeamMoves.Drops | crates/laplace-model-rt/src/async_semaphore.rs:289-299 | a dropped call says so exactly if it had announced itself |
| SeamMoves.ReportsGoOn | crates/laplace-model-rt/src/async_semaphore.rs:240-286 | a report always goes on, and names its caller and what was asked for |
| SeamMoves.CreationGoesOn | crates/laplace-model-rt/src/async_semaphore.rs:54-64 | the first to swap the flag reports the creation with the initial permits, everyone else goes straight on |
| SeamMoves.Releases | crates/laplace-model-rt/src/async_semaphore.rs:309-333 | what is held is reported released and then given back, or forgotten without a word |
| SeamMoves.CallsBegin | crates/laplace-model-rt/src/async_semaphore.rs:105-210 | every request of the right sort is taken; `try_*` is served at once if it can be; added permits are there before they are reported |
| SeamMoves.CreatedWithInitial | crates/laplace-model-rt/src/async_semaphore.rs:54-64 | every creation event carries the permits the semaphore was made with |
| LockSeam.WaiterGrammar | crates/laplace-model-rt/src/async_semaphore.rs:240-333 | each waiter's log is a prefix of requested? acquired released, or requested dropped |
| LockSeam.AcquireFuture.Poll | crates/laplace-model-rt/src/async_semaphore.rs:240-286 | reports contention at the first pending poll only and acquisition once |
| LockSeam.AcquireFuture.DropFuture | crates/laplace-model-rt/src/async_semaphore.rs:289-299 | reports a drop iff the waiter was announced and never served; the future's whole log is in the grammar |
| LockSeam.Permit.Forget | crates/laplace-model-rt/src/async_semaphore.rs:314-318 | gives up the permit and reports nothing |
| LockSeam.Permit.DropGuard | crates/laplace-model-rt/src/async_semaphore.rs:321-333 | reports a release iff the permit was still owned |
| CreationReport.CreatedOnce | crates/laplace-model-rt/src/async_semaphore.rs:54-64 | however calls race the creation is reported at most once, and exactly once when the flag is set and no report is in flight |
| CreationReport.CreatedFirst | crates/laplace-model-rt/src/async_semaphore.rs:54-64 | when calls do not overlap the creation is the first event |
| CreationReport.OvertakenIffOverlapping | crates/laplace-model-rt/src/async_semaphore.rs:54-64 | exactly: from a reachable state with an empty log, finishing the reports under way can log another event first iff two callers are in a report |
| CreationReport.OverlapOvertakes | crates/laplace-model-rt/src/async_semaphore.rs:54-64 | two callers in a report always have such a run, of at most three steps |
| CreationReport.OverlappingCallsReportLate | crates/laplace-model-rt/src/async_semaphore.rs:54-64 | on every semaphore with two permits, a run that logs an acquisition before the creation |
| PermitLog.LoggedPermitsWithinLoggedAdds | crates/laplace-model-rt/src/async_semaphore.rs:105-113 | the bound on permits out measured by the log alone, up to additions whose report is in flight |
| PermitLog.ExceedsIffUnreported | crates/laplace-model-rt/src/async_semaphore.rs:105-113 | exactly: from a reachable state, some run that adds no permits and reports no addition brings the log to show more permits out than given iff an addition has yet to be reported |
| PermitLog.UnreportedExceeds | crates/laplace-model-rt/src/async_semaphore.rs:166-333 | such a run, built by finishing what callers have begun and taking every free permit |
| PermitLog.AdditionReportedLate | crates/laplace-model-rt/src/async_semaphore.rs:105-113 | on every semaphore, a run whose log shows one permit more out than it shows given |
| ObservedTasks.StepMirrors | crates/laplace-model-rt/src/spawn.rs:235-349 | one step of runtime, abort or handle keeps the observed run a mirror of the native one |
| ObservedTasks.ObservationIsTransparent | crates/laplace-model-rt/src/spawn.rs:235-392 | for every future and every schedule of polls, aborts and handle polls the observed handle answers as the native one, and the output `expect` never fails |
| ObservedTasks.PollKeepsGrammar | crates/laplace-model-rt/src/task_set.rs:182-218 | a poll keeps the task's log what its future's polls make it; a finished task logs nothing more |
| ObservedTasks.AnswersFollowFuture | crates/laplace-model-rt/src/spawn.rs:235-321 | in every run a value is what the future's last poll was ready with, a panic its last poll's, earlier polls were pending, and a cancelled task was aborted before it ended |
| ObservedTasks.TasksMove | crates/laplace-model-rt/src/spawn.rs:213-321 | a scheduled live task is polled unless an abort is pending, which ends it; a handle on a task that is over answers at once |
| ObservedTasks.TaskLogGrammar | crates/laplace-model-rt/src/task_set.rs:182-218 | in every run the log is consecutive numbered pending brackets and, once a poll was ready or panicked, one bracket that says which and one finish |
| ObservedTasks.LogTellsNativeEnd | crates/laplace-model-rt/src/task_set.rs:195-218 | for every future and schedule the observed log ends ready iff the native task completes, panicked iff it panics, and has only pending brackets otherwise |
| ObservedTasks.ObservedTask.Poll | crates/laplace-model-rt/src/task_set.rs:182-218 | one bracket per poll, closed as pending, ready or panicked as the future was; exactly when it ended, then the handle's completion, waking its waker, then the finish; no panic passed on |
| TaskCompletion.Completion.Finish | crates/laplace-model-rt/src/task_set.rs:36-45 | marks the end and takes out the stored waker |
| TaskCompletion.Completion.Poll | crates/laplace-model-rt/src/task_set.rs:47-64 | ready iff finished; a pending poll leaves its own waker stored |
| TaskCompletion.PendingHandleIsWoken | crates/laplace-model-rt/src/task_set.rs:35-93 | in every interleaving a pending handle's latest waker is stored, about to be woken, or woken |
| TaskCompletion.LastPollIsWoken | crates/laplace-model-rt/src/task_set.rs:35-64 | read off the actions: the waker of the handle's last poll before completion is called as soon as the completer wakes, whatever comes after |
| JoinAttribution.ProbeTaskHook.Call | crates/laplace-probe-sdk/src/task.rs:32-85 | one callback's effect on the thread's current task and the join events |
| JoinAttribution.ProbeTaskHook.CallAll | crates/laplace-probe-sdk/src/task.rs:32-85 | the hook's state after any sequence of callbacks |
| JoinAttribution.JoinsNameOpenPoll | crates/laplace-probe-sdk/src/task.rs:32-85 | with polls that do not nest, the join events are exactly those that name the open poll bracket |
| JoinAttribution.CurrentIsLatestStart | crates/laplace-probe-sdk/src/session.rs:151-161 | nested or not, a join is attributed to the latest boundary if that was a poll start, and dropped otherwise |
| JoinAttribution.CurrentIsInnermost | crates/laplace-probe-sdk/src/task.rs:32-62 | a task the thread-local names is always the innermost open poll |
| JoinAttribution.JoinsAreFewer | crates/laplace-probe-sdk/src/task.rs:67-85 | the hook never emits more join events than the brackets call for |
| JoinAttribution.AttributionIsExact | crates/laplace-probe-sdk/src/task.rs:32-85 | exactly: over every callback sequence the join events are those the brackets call for iff each join inside a poll follows a poll start with no other boundary in between |
| JoinAttribution.NestedPollDropsJoin | crates/laplace-probe-sdk/src/task.rs:41-85 | after a nested poll ends, a join inside the outer poll is lost |
| CaptureSession.Reachable | crates/laplace-probe-sdk/src/session.rs:100-144 | in every interleaving: lock owner unique, sender installed exactly for the installed session, every queue and collection a window of the emissions, windows disjoint |
| CaptureSession.FinishReturnsItsWindow | crates/laplace-probe-sdk/src/session.rs:120-136 | read off the actions: `finish` returns exactly the events emitted after its session's one install and before its one teardown, in order |
| CaptureSession.EmittedIsEmissions | crates/laplace-probe-sdk/src/session.rs:187-212 | every emission counts, whoever is installed |
| CaptureSession.WholeSession | crates/laplace-probe-sdk/src/session.rs:100-136 | whenever nobody holds the capture lock a new session can be run for any events, and returns them all in order |
| CaptureSession.UnlockFrees | crates/laplace-probe-sdk/src/session.rs:138-144 | a session that has returned lets the lock go and keeps its result |
| CaptureSession.NoEventInTwoSessions | crates/laplace-probe-sdk/src/session.rs:187-212 | no emission lies in two sessions' results |
| CaptureSession.OneSessionAtATime | crates/laplace-probe-sdk/src/session.rs:100-118 | two sessions never own the capture at once |
| CaptureSession.DrainEnds | crates/laplace-probe-sdk/src/session.rs:127-136 | after teardown the collector can drain its queue and end without anyone else moving, returning everything queued |
| CaptureSession.TornDownQueueShrinks | crates/laplace-probe-sdk/src/session.rs:127-136 | no sender survives teardown: nothing more is queued for the session |
| VersionedCell.ModelArcSwap.Load | crates/laplace-model-rt/src/arc_swap.rs:65-76 | returns the published snapshot and reports its version |
| VersionedCell.ModelArcSwap.Store | crates/laplace-model-rt/src/arc_swap.rs:92-105 | publishes the next version with the value, or nothing when the counter is exhausted |
| VersionedCell.Cache.Load | crates/laplace-model-rt/src/arc_swap.rs:254-262 | returns what a fresh load would |
| VersionedCell.CacheEqualsFreshLoad | crates/laplace-model-rt/src/arc_swap.rs:92-119 | whatever stores run beside it, every cache load returned the value a direct load at its read would have |
| VersionedCell.CacheLoadIsFresh | crates/laplace-model-rt/src/arc_swap.rs:254-262 | read off the actions: whatever stores and other observers do between a cache load's steps, it leaves the cache with the value and version current at its read |
| VersionedCell.StoresAreNumberedInOrder | crates/laplace-model-rt/src/arc_swap.rs:92-105 | store events are versions 1, 2, 3, ... with no gap or reorder |
| VersionedCell.VersionsNeverDecrease | crates/laplace-model-rt/src/arc_swap.rs:113-119 | the versions one observer sees, through its cache and by direct loads, never decrease |
| VersionedCell.VersionNeverGoesBack | crates/laplace-model-rt/src/arc_swap.rs:92-105 | along every run the published version never decreases |
| VersionedCell.StoreCompletes | crates/laplace-model-rt/src/arc_swap.rs:92-105 | a store can be run whenever no other has begun; it publishes and reports the next version, or poisons the cell when the counter is exhausted |
| VirtualClock.Interval.Poll | crates/laplace-model-rt/src/async_time.rs:290-333 | one poll starts an unstarted interval at now, fires iff due, and moves the deadline one period on, saturating |
| VirtualClock.Interval.PollAll | crates/laplace-model-rt/src/async_time.rs:282-333 | the state and number of ticks after any sequence of polls |
| VirtualClock.DeadlineAfterTicks | crates/laplace-model-rt/src/async_time.rs:290-333 | after k ticks, at whatever times, the deadline is min(u64::MAX, start + k·period) |
| VirtualClock.LastTickWasDue | crates/laplace-model-rt/src/async_time.rs:290-333 | on a monotone clock below u64::MAX the last tick was due by the latest poll |
| VirtualClock.ExhaustedIntervalHasTicked | crates/laplace-model-rt/src/async_time.rs:290-333 | polling to exhaustion at `now` has fired exactly (now − start) / period + 1 ticks; never more before |
| VirtualClock.TwoPollsAtTop | crates/laplace-model-rt/src/async_time.rs:290-333 | two polls at u64::MAX fire two ticks, one more than the bound |
| VirtualClock.TickBoundIffBelowTop | crates/laplace-model-rt/src/async_time.rs:290-333 | exactly: every way of polling up to `now` stays within (now − start) / period + 1 ticks iff now < u64::MAX |
| VirtualClock.Timeout.Poll | crates/laplace-model-rt/src/async_time.rs:217-234 | future first; a pending future starts the delay once and elapses at the deadline |
| VirtualClock.TimeoutResolution | crates/laplace-model-rt/src/async_time.rs:121-234 | a timeout resolves at the first poll where the future is ready or the deadline fixed at the first poll is reached, Ok iff the future is ready there |
| PacketQueue.QueueContents.Push | examples/quilkin-pktq-analog/src/lib.rs:60-63 | appends the packet and nothing else |
| PacketQueue.QueueContents.Drain | examples/quilkin-pktq-analog/src/lib.rs:96-116 | takes the whole queue or nothing, and returns from `drain` exactly on shutdown with the queue empty |
| PacketQueue.DrainedIsEnqueued | examples/quilkin-pktq-analog/src/lib.rs:59-118 | read off the actions: when `drain` has returned the batches concatenate to the packets in the order their calls pushed them, which are those of all the enqueue calls, each once |
| PacketQueue.CallsCanFinish | examples/quilkin-pktq-analog/src/lib.rs:59-83 | every enqueue call can run to its end, pushing, counting and announcing its packet; then shutdown can come |
| PacketQueue.ConsumerTakes | examples/quilkin-pktq-analog/src/lib.rs:90-116 | the consumer takes the whole queue or nothing, and returns exactly on shutdown with the queue empty |
| PacketQueue.ShutdownStep | examples/quilkin-pktq-analog/src/lib.rs:80-118 | Normal policy: after shutdown the consumer can always step, and each step brings it closer to its return |
| PacketQueue.DrainEndsAfterShutdown | examples/quilkin-pktq-analog/src/lib.rs:80-118 | Normal policy: at most four consumer steps after shutdown `drain` returns, although the watch coalesces values |
| PacketQueue.SuppressedDrainNeverReturns | examples/quilkin-pktq-analog/src/lib.rs:66-70 | with the push wake suppressed, `drain` never returns in a run that pushed a packet |
| PacketQueue.SuppressedReturnsIffEmpty | examples/quilkin-pktq-analog/src/lib.rs:59-118 | exactly: with the push wake suppressed, after shutdown `drain` can return iff nothing was pushed |
| UseAliases.Collector.Collect | crates/laplace-macro/src/model.rs:965-1002 | the push/pop walk restores the prefix and inserts exactly the tree's leaf bindings, left to right; a name, `self`, a rename and a glob each bind what they say |
| UseAliases.RenameBinds | crates/laplace-macro/src/model.rs:990-994 | `use path::a as b` binds `b` to `path::a` and nothing else |
| UseAliases.NameBinds | crates/laplace-macro/src/model.rs:986-988 | `use path::a` binds `a` |
| UseAliases.SelfBinds | crates/laplace-macro/src/model.rs:976-985 | `use path::{self}` binds the path's last name to the path |
| UseAliases.GlobBinds | crates/laplace-macro/src/model.rs:1000 | a glob binds nothing |
| UseAliases.GroupBinds | crates/laplace-macro/src/model.rs:995-999 | a group binds what its items would, one declaration after another |
| UseAliases.Collector.InsertTokioAlias | crates/laplace-macro/src/model.rs:948-956 | records a binding iff its path is rooted at tokio |
| UseAliases.LastBindingWins | crates/laplace-macro/src/model.rs:948-1002 | the last tokio-rooted binding of a name is the one in the table |
| UseAliases.UnboundKeepsEntry | crates/laplace-macro/src/model.rs:948-1002 | a name no tokio-rooted leaf binds keeps what the table had |
| UseAliases.InsertKeepsTokio | crates/laplace-macro/src/model.rs:948-956 | every path in a table stays rooted at tokio |
| ModelRewrite.CanonicalIdempotent | crates/laplace-macro/src/model.rs:195-220 | resolving an aliased path twice is resolving it once iff `tokio` is not rebound |
| ModelRewrite.CanonicalOnArgs | crates/laplace-macro/src/model.rs:195-220 | resolution moves generic arguments and commutes with anything done to them |
| ModelRewrite.ModelPathStays | crates/laplace-macro/src/model.rs:287-361 | no rule rewrites a path of the model crate, whatever `laplace_sdk` is bound to |
| ModelResolution.CanonicalResolves | crates/laplace-macro/src/model.rs:195-220 | looking a path up in a table is writing out what its first name stands for, exactly unless the path starts from the root and that name is an alias |
| ModelResolution.ReplaceCommutes | crates/laplace-macro/src/model.rs:287-340 | for any rule table, rewriting then resolving one path is resolving then rewriting |
| ModelResolution.PathCommutes | crates/laplace-macro/src/model.rs:287-361 | the same for a path with generic arguments nested to any depth |
| ModelResolution.MarkersFitExactly | crates/laplace-macro/src/model.rs:870-901 | the model crate's own paths raise the markers they would without aliases iff no alias is called `laplace_sdk` or it stands for an unmarked path |
| ModelResolution.OwnMarkersCommute | crates/laplace-macro/src/model.rs:870-901 | a path and its qualified form raise the same marker |
| ModelResolution.PathMarkersCommute | crates/laplace-macro/src/model.rs:318-340 | the markers raised inside generic arguments of any depth agree too |
| Scoping.RemoveShadowedAliases | crates/laplace-macro/src/model.rs:1030-1037 | removes exactly the declared names and leaves other entries as they were |
| Scoping.ScanUseAliases | crates/laplace-macro/src/model.rs:1042-1069 | a scope's own aliases: its use-trees' bindings without the names its items declare |
| Scoping.MergeAliases | crates/laplace-macro/src/model.rs:936-943 | the union, the overlay winning |
| Scoping.ScopeLookup | crates/laplace-macro/src/model.rs:936-1069 | a name means its last tokio binding in the scope unless an item declares it; otherwise what the enclosing scope says; one of the two always applies |
| Scoping.ScopeTableFollows | crates/laplace-macro/src/model.rs:136-153 | going into a scope, the table of the aliases in force outside becomes that of the aliases in force inside |
| Scoping.AliasIsMeaning | crates/laplace-macro/src/model.rs:129-131 | exactly: the alias in force for a name is what the name means lexically iff the innermost scope that introduces it does not hide it from one |
| Scoping.OtherCrateAddsNothing | crates/laplace-macro/src/model.rs:948-1002 | a `use` tree of any other crate, however it groups and renames, adds no alias |
| ModelScopes.NodeCommutes | crates/laplace-macro/src/model.rs:287-361 | for any code whose names' aliases are what they mean, the aliased and the qualified form get the same paths and generics |
| ModelScopes.NodeMarkersCommute | crates/laplace-macro/src/model.rs:287-361 | for such code they raise the same markers |
| ModelScopes.FnCommutes | crates/laplace-macro/src/model.rs:88-102 | a function with its body, its injected markers, and its signature qualified outside the body: aliased and qualified form agree |
| ModelScopes.ModCommutes | crates/laplace-macro/src/model.rs:136-153 | through any nesting of modules, rewriting the aliased program and qualifying it by lexical scope is qualifying it and rewriting without aliases, or with them kept, if no name is hidden from an alias in force |
| ModelScopes.AnnotatedModCommutes | crates/laplace-macro/src/model.rs:113-124 | the same for an annotated module, which starts from no aliases |
| ModelLaws.TypeNamesFollowSource | crates/laplace-macro/src/model.rs:410-738 | a model type keeps the last two names of its source or, for a lock, is named `Model`, `Async` if tokio's, and the lock's name |
| ModelLaws.CallNamesFollowSource | crates/laplace-macro/src/model.rs:385-694 | so does a model function, a constructor behind the name of its type; spawns go to the spawn of their kind |
| ModelCoverage.LockTypesAreModelled | crates/laplace-macro/src/model.rs:410-520 | every std or tokio lock's type, in full, becomes the model named after it, with its arguments rewritten |
| ModelCoverage.LockConstructorsAreModelled | crates/laplace-macro/src/model.rs:441-547 | so does its `new`, and tokio's `const_new` |
| ModelCoverage.ChannelTypesAreModelled | crates/laplace-macro/src/model.rs:575-645 | every channel end, mpsc's unbounded ends and watch's `Ref` become the model's of the same names |
| ModelCoverage.ChannelConstructorsAreModelled | crates/laplace-macro/src/model.rs:552-619 | so do the channel constructors |
| ModelCoverage.TimersAreModelled | crates/laplace-macro/src/model.rs:699-738 | the three timer types go to the model's time module |
| ModelCoverage.TimerCallsAreModelled | crates/laplace-macro/src/model.rs:663-694 | so do the three timer functions |
| ModelCoverage.SpawnsAreModelled | crates/laplace-macro/src/model.rs:287-307 | `std::thread::spawn` and `thread::spawn` always, and both tokio spawns in tasks mode |
| ModelCoverage.SelectIsModelled | crates/laplace-macro/src/model.rs:353-362 | so is `tokio::select!` |
| ModelCoverage.MarkedFor | crates/laplace-macro/src/model.rs:768-865 | an unmodelled timer, tokio spawn or arc-swap path without a rule raises its marker |
| ModelCoverage.MarkedByMention | crates/laplace-macro/src/model.rs:870-901 | a std or tokio::sync path without a rule that mentions a condition variable, an mpsc channel or an atomic raises that marker, in this order |
| ModelLaws.ArgumentsSurvive | crates/laplace-macro/src/model.rs:195-738 | wherever a path stands, every generic argument list written in it survives its rewriting exactly once, in order, and none is added |
| ModelLaws.WholeTypesStayDistinct | crates/laplace-macro/src/model.rs:318-340 | types rewritten to the same type were the same at every depth of their generics, up to resolution |
| ModelLaws.WholeCallsStayDistinct | crates/laplace-macro/src/model.rs:287-316 | called paths rewritten to the same path were the same at every depth, up to resolution, or two spellings of one spawn |
| ModelLaws.OneMarkerEach | crates/laplace-macro/src/model.rs:253-267 | exactly one injected marker per un-modelled primitive seen |
| ModelCompleteness.RewrittenIsClean | crates/laplace-macro/src/model.rs:287-361 | rewritten code has no call, type or macro left that has a model, at any depth |
| ModelCompleteness.CodeKeepsShape | crates/laplace-macro/src/model.rs:287-361 | and is the same code but for its paths |
| ModelCompleteness.ModIsDone | crates/laplace-macro/src/model.rs:88-153 | through any nesting every function keeps its name, its statements and their order, loses every path with a model in its own scope, and gets in front one marker for each primitive raised in it and no other; other items stay |
| ModelCompleteness.UnmarkedFnIsModelled | crates/laplace-macro/src/model.rs:249-267 | a function that gets no marker has only modelled calls and types, in its signature and every statement |
| ModelCompleteness.ItemNamesAre | crates/laplace-macro/src/model.rs:1011-1028 | which names shadow a module's own aliases |
| ModelCompleteness.StmtNamesAre | crates/laplace-macro/src/model.rs:1042-1057 | which names shadow a body's own aliases |
| ModelCompleteness.UsesAreInOrder | crates/laplace-macro/src/model.rs:1060-1067 | every `use` item of a module is scanned, in its place |
| ModelCompleteness.StmtUsesAreInOrder | crates/laplace-macro/src/model.rs:1042-1049 | every top-level `use` of a body is scanned, in its place |
| ModelHonesty.CallsAndTypesAreModelled | crates/laplace-macro/src/model.rs:249-340 | code that raised no marker holds, once rewritten, no unmodelled primitive in its calls and types, at any depth |
| ModelHonesty.EverythingIsModelledIff | crates/laplace-model-rt/src/unmodeled.rs:4-10 | exactly: such code holds none anywhere iff no plain path expression, and no macro name without a rule, was one |
| ModelHonesty.SpawnValueIsUnmarked | crates/laplace-macro/src/model.rs:287-316 | `tokio::spawn` handed on as a value is recognised, and neither rewritten nor marked |
| ModelHonesty.RenamedStdIsUnmarked | crates/laplace-macro/src/model.rs:870-901 | a std primitive imported under another name adds no alias, and its call is neither rewritten nor marked |
| ModelPasses.NodeTwice | crates/laplace-macro/src/model.rs:287-361 | rewriting rewritten code changes nothing, whatever the aliases |
| ModelPasses.SpawnPassIsRedundant | crates/laplace-macro/src/model.rs:271-285 | the extra pass over discarded spawns does not change the rewritten call |
| ModelPasses.SpawnPassMarkers | crates/laplace-macro/src/model.rs:365-380 | nor its markers, exactly unless it replaced something while `laplace_sdk` stands for a marked path |
| ModelPasses.SpawnPassAddsMarker | crates/laplace-macro/src/model.rs:365-380 | with `laplace_sdk` bound to `tokio::sync::mpsc` the pass adds a channel marker |
| ModelDepartures.LeadingColonIsIgnored | crates/laplace-macro/src/model.rs:195-220 | a path from the root is left as it is iff its first name is no alias, and otherwise taken for the relative path |
| ModelDepartures.ExternalTimeIsRewritten | crates/laplace-macro/src/model.rs:195-220 | after `use tokio::time`, the external crate's `::time::sleep` is rewritten |
| ModelDepartures.SignatureSeesBodyAliases | crates/laplace-macro/src/model.rs:88-102 | a signature is rewritten by a `use` inside its body, though the name is unbound outside it |
| ModelDepartures.SignatureUnaffectedIff | crates/laplace-macro/src/model.rs:88-102 | exactly: signature paths resolve as outside iff every alias the body adds was there already, for the same path |
| ModelDepartures.DeclaredSeesEnclosing | crates/laplace-macro/src/model.rs:1030-1037 | for a name its items declare, a scope sees exactly what the enclosing scope does |
| ModelDepartures.EnclosingAliasOutlivesItem | crates/laplace-macro/src/model.rs:136-153 | a module's own `Mutex` is rewritten because of the enclosing module's `use tokio::sync::Mutex` |
| ModelDepartures.InnerStdUseIsIgnored | crates/laplace-macro/src/model.rs:129-153 | a module's own `use std::sync::Mutex` is passed over and its `Mutex` rewritten through the enclosing tokio alias, although it means std's |
| ModelDepartures.ReboundTokioBreaksKeptForm | crates/laplace-macro/src/model.rs:195-220 | with `tokio` bound to `tokio::sync` and kept, the aliased type is rewritten and its qualified form is not |

## Left out

- Network, file and environment input and output: the probe client, licensing, configuration, event dumps, the cloud sink of `emit`.
- The mpsc, oneshot, watch, broadcast, notify and async mutex wrappers, which repeat the poll and drop state machine of the semaphore and read-write lock; the tracked types, event enums and FFI structs, which copy fields.
- Harness generation (`verify.rs`, `target.rs`, derive macros): argument parsing and token emission.
- Legacy thread-local and global probe senders: taken as absent, as for generated harnesses. Thread ids are given, not allocated.
- Poisoned mutexes: as if recovered, except that an exhausted version counter poisons the cell's store lock.
- Resource names are numbers and the reported cycle is a pair, since names are only compared; the text of the description is not modelled.
- Fairness queues of tokio's locks: a served request is any that the lock state allows, so every queueing order is covered. Dropping a future between being granted and observing it is not a separate step.
- The hooks are installed throughout a run, ids are not reset during it, and futures are not polled after they resolve.
- Lease pool: cancellation of an acquirer, the manager's command loop and the `waiter_parked`, `idle_wake` and `idle_watch` signals; the manager's one effect on the slot is `PoolState.Expire`.
- The engine mode of `TaskHandle`, and timers without a hook, which defer to tokio; `ModelArcSwapOption`, which repeats the cell without a cache.
- The visitors rewrite a syntax tree in place; they are modelled as functions from tree to tree. Syntax is cut to paths, their angle-bracketed type arguments, calls, types, macro names and nesting; macro bodies are opaque to the visitors and absent here. Out-of-line modules are items that only declare a name, so the error for an annotated one is not modelled.
- Capture sessions are modelled as a state machine only, not as a class: every operation is one access to a shared lock, slot or channel.
- PermitLog.LoggedPermitsWithinLoggedAdds: the bound includes additions whose report is in flight, because `add_permits` adds before it reports; `PermitLog.ExceedsIffUnreported` says exactly when it fails without them.
- ModelScopes.ModCommutes: programs in which a name is hidden from an alias in force, a path from the root starts with an alias, or a body changes an alias its signature uses; and those in which, with `use` declarations kept, `tokio` is another path's alias, or, with them dropped, `laplace_sdk` is the alias of a path that raises a marker. The law fails there as shown.
- Glob imports, `let` bindings, and declarations in nested blocks and nested items, none of which the scan sees, are absent from the scopes, and so are names a path must reach through `self`, `super` or `crate`. Modules inherit the enclosing scope's names, as the attribute documents, although in Rust they do not.
