# A verified model of the GPU broker

The broker arbitrates one GPU between interactive requests, batch requests and durable jobs, and
gives the GPU up when something else on the machine needs it. Everything hard about it lives in a
few interacting state machines. This project models those machines and proves what they keep over
every run:

- **Scheduler, park queue and Gate** (`Slices`, `Scheduler`, `SchedulerRaces`, `Park`, `ParkRaces`,
  `Gate`). The two queues are classes over real backing arrays, with the offset, the copy-down and
  the cleared slots of the Go slices; each method is proved against a function on sequences. The
  races between grant and cancellation, and between release, timeout, hang-up and shutdown, are step
  relations over any number of clients. `Gate` composes both with the yield state.
- **Yield controller** (`Yield`, `Controller`, `YieldRaces`). The object with its per-instance
  slices, and every interleaving of the poller, the mode switch, the request handlers and the action
  goroutines.
- **Job store and worker** (`JobTable`, `JobStore`, `JobRuns`, `WorkerRaces`). The jobs table as a
  map, each transaction as one step; the hint column as a double-ended queue; attempt accounting
  over any sequence of transactions with restarts; the worker racing with Cancel, yield, interactive
  work, shutdown and crashes, where any terminal write may fail.
- **The broker as a whole** (`ServeBridge`, `Broker`). Controller, Gate and worker stepping together
  over any run with restarts: the controller's contexts are the ones requests and jobs see, the worker
  is one client of the Gate's scheduler, and its monitor looks at that scheduler's queue.
- **Configuration and wiring** (`Strings`, `Config`, `Wiring`) and the **event-stream parser** (`Sse`).

`dafny verify dfyconfig.toml` checks everything.

## Granularity

A step of the controller is one mutex-held region, except that `checkIdleLocked` is split into its
own atomic accesses, because request handlers do not take the mutex: the load of `inFlight`, the load
of `idleUnloaded`, the load of `lastDispatch` with the clock, and the compare-and-swap are four steps,
and any handler access may come between two of them. `applyLocked` is one step: what it stores is
otherwise written only by the handlers' stores and wake compare-and-swap, and its regions are not
split further. Each atomic access of a `TrackActivity` handler is a step, and so are the start and
the end of each action goroutine, which ends the same way when its call fails or panics. In the
scheduler and the park queue a step is one locked region or one choice of a `select` statement. In
the store a step is one transaction, because the pool has a single connection; Position alone is two
statements without one, and other steps may come between them (`JobRuns.PositionAcrossCommits`).

`Gate` and `WorkerRaces` know the controller only as a yield state and the number of the current
serve context. `ServeBridge` proves that each controller step moves these as the yield steps of the two
models do, with the same contexts cancelled, and `Broker` runs all three at once and restates the main
results over the controller's own state.

## Where the code does not do what one would expect

- *An idle unload can meet live traffic.* A request that arrives after the poller has read
  `inFlight` and before its compare-and-swap is served without a wake while the unload is queued
  behind it. `YieldRaces.IdleUnloadMeetsOnlyLateRequests` says exactly when: iff a request that came
  after that load is still in flight. `ArrivalInWindowIsUnloaded` shows that it happens to each
  arrival in that window, `WindowIsReachable` that the window is reached. The requests an idle unload
  meets are recorded as `caught`; `ServedInstanceIsUp` holds for every other request.
- *An idle unload can cross a wake.* When a request has won its wake and still waits for the mutex
  while a slow poller fires, the wake's Reload is queued behind the new Unload and the flag stays up
  on an instance last told to come up. `ControllerAgrees` states that flag and chain agree except
  exactly while such a flag (`crossed`) is up, and `CrossingIsReachable` that this does occur.
- *A wake can reload an instance during a yield.* The wake compare-and-swap does not look at the
  yield state, so a wake won before or during a yield queues its Reload behind the Unload of the
  yield. `ControllerAgrees` states what remains: while yielding, the last action of an instance is
  Unload exactly if no wake was queued since the yield began.
- *Recovery can reverse.* The comment in `RecoverRunning` (sqlite.go:281-282) says that recovered jobs
  keep their created order. `JobRuns.RestartOrder` gives the exact condition: they do iff all jobs that
  survive the sweep were created at one time; if no two were, they come out newest first. Two jobs to
  recover take a terminal write that failed before the crash, since otherwise only the job the worker
  was on is RUNNING (`WorkerRaces.CrashLeaves`); with one such write it does happen
  (`WorkerRaces.ReversalIsReachable`).
- *A generator error can go back in line as a preemption.* The monitor watches until `runJob` returns,
  so it can still preempt a run whose Generate has failed by itself while the questions are asked. The
  run is then requeued without being charged, even if it failed before its quantum.
  `WorkerRaces.EarlyFailureRequeuedIff` says exactly when: iff the monitor fires between the failure and
  the last question; `WorkerRaces.LateMonitorRequeues` runs it from any healthy early run. A run that
  had been preempted when it failed has always had its quantum (`QuantumIsHonoured`).
- *A Cancel can miss the run.* A Cancel between the claim and `startRun` finds nothing registered; the
  job is generated in full and only its final write is refused: `WorkerRaces.CancelCanMissTheRun`.
- *An upstream panic records no outcome.* The slot is released all the same: `Gate.PanicIsNotRecorded`.
- *The hold bounds one park, not one request.* A request may park any number of times:
  `Gate.HoldIsPerPark`.
- *A drain burst of 0 never releases anyone.* The setter ignores values below 1, so a scheduler set to
  park without a burst keeps 0, parks requests and never releases one: `ParkRaces.ParkedForGood`. The
  drain bound asks for a burst of at least 1. The deployed broker always has one, because the
  configuration replaces a smaller value by the default (config.go:309).
- *The parser shortens data lines.* It strips white space at the end of a data line, which section
  9.2.6 of the WHATWG HTML Living Standard keeps; a line survives exactly if it has none:
  `Sse.DataLineReadBack`.
- *A unit name is asked for even where it is not needed.* `Load` refuses an idle timeout without a
  unit name for an ollama backend too, although such a backend always has an unloader.

## Model

| member | source | states |
|---|---|---|
| Slices.WithoutKeepsOrder | internal/queue/scheduler.go:233-248 | Removing a waiter drops exactly that one, and the rest keep their order. |
| Slices.WithoutAdvances | internal/queue/scheduler.go:233-248 | When a waiter leaves the queue, nobody else moves back. |
| Slices.Slice.Append | internal/queue/scheduler.go:209-215 | Appending extends the queue, in place or into a larger array. |
| Slices.Slice.PopFront | internal/queue/scheduler.go:217-231 | Takes the oldest element and clears its slot; nothing on the empty queue. |
| Slices.Slice.Remove | internal/queue/scheduler.go:233-248 | Finds the element iff it is queued, and then removes exactly it, wherever it stands, clearing the freed slot. |
| Slices.Slice.TakeFront | internal/queue/park.go:183-206 | Splices the first n elements out in order and clears their slots. |
| SchedulerSpec.AdmitKeepsSound | internal/queue/scheduler.go:112-131 | Admission keeps the limits, keeps both queues in arrival order, and never leaves a waiter beside a free slot. |
| SchedulerSpec.ReleaseKeepsSound | internal/queue/scheduler.go:149-157 | A release grants a channel that is not closed yet, and keeps the same invariant. |
| SchedulerSpec.WithdrawKeepsSound | internal/queue/scheduler.go:136-144 | A cancelled waiter leaves its queue without disturbing anyone else. |
| SchedulerImpl.Scheduler.constructor | internal/queue/scheduler.go:73-102 | Starts empty with limits 1 and 256 unless set to at least 1. |
| SchedulerImpl.Scheduler.TryAcquire | internal/queue/scheduler.go:112-129 | Granted iff fewer slots are in use than allowed, full iff none is free and the queue of the class is at its cap, else queued last in that queue; the other class is untouched, and only a queued interactive request pings. |
| SchedulerImpl.Scheduler.CancelWait | internal/queue/scheduler.go:134-145 | True iff the waiter was still queued, and then it alone is removed; for a waiter that has not withdrawn before, false iff its channel has been closed, so that it owns a slot. |
| SchedulerImpl.Scheduler.Dequeue | internal/queue/scheduler.go:217-231 | Takes the oldest interactive waiter, else the oldest batch waiter. |
| SchedulerImpl.Scheduler.ReleaseSlot | internal/queue/scheduler.go:149-157 | The first interactive, else the first batch waiter leaves its queue and has its channel closed; with nobody waiting a slot is freed. |
| SchedulerImpl.Scheduler.Stats | internal/queue/scheduler.go:175-189 | The snapshot reports slots in use and their limit, both queue depths and the park depth; busy iff a slot is in use, and all slots are in use while anyone waits. |
| SchedulerRaces.NextKeepsInv | internal/queue/scheduler.go:112-157 | Every locked region and every select choice keeps: inflight equals the number of slot owners, queued channels belong to clients that still wait, waiting clients are queued or granted. |
| SchedulerRaces.FreeMovesOwnership | internal/queue/scheduler.go:136-157 | A release either gives up one slot or passes it to exactly one new owner. |
| SchedulerRaces.AcquireDecides | internal/queue/scheduler.go:112-129 | From any state of any run: an Acquire holds a slot at once iff the owners are fewer than maxInflight, is refused iff they are not and its queue is full, and otherwise waits last in its own class. |
| SchedulerRaces.WaitEnds | internal/queue/scheduler.go:131-145 | A granted waiter that wakes holds the slot; one that gives up hands the slot on iff it had been granted, and otherwise leaves with nothing. |
| SchedulerRaces.FreeServesFront | internal/queue/scheduler.go:149-157 | A release makes its owner idle and closes the channel at the front of the first class that has a waiter. |
| SchedulerRaces.SlotsConserved | internal/queue/scheduler.go:112-157 | Over every run the slots in use equal the owners (granted but not yet woken included), never exceed maxInflight, and are all in use while anyone waits. |
| SchedulerRaces.NoDoubleClose | internal/queue/scheduler.go:149-157 | Over every run, Release only closes channels that are still open. |
| SchedulerRaces.NoSlotLeak | internal/queue/scheduler.go:134-146 | Once every client has left, every slot is free and both queues are empty, however many grants raced with cancellations. |
| SchedulerRaces.NextAdvances | internal/queue/scheduler.go:209-248 | No step puts anyone in front of a waiter, and each hand-off to its class moves it up by one. |
| SchedulerRaces.BoundedOvertaking | internal/queue/scheduler.go:112-157 | The waiter at index k has left its queue after k+1 hand-offs, whoever arrives; a batch waiter counts those made while no interactive request waits. |
| ParkSpec.EnterKeepsOrder | internal/queue/park.go:67-89 | Parking appends in arrival order and refuses exactly at the ceiling. |
| ParkSpec.DrainKeepsOrder | internal/queue/park.go:183-206 | A burst releases the oldest entries; released then queued entries stay in arrival order. |
| ParkSpec.RemoveKeepsOrder | internal/queue/park.go:123-135 | An entry that removes itself leaves the order of all others alone. |
| ParkSpec.BurstConfigured | internal/queue/park.go:229-248 | A scheduler configured once has burst 0 iff it was given none of at least 1, and parks iff it was given a queue. |
| ParkImpl.Parker.SetParkConfig | internal/queue/park.go:229-248 | A queue of 0 switches parking off, and a negative queue, a burst below 1 and a hold not above 0 keep what was there; every other value is taken. |
| ParkImpl.Parker.EnterQueue | internal/queue/park.go:67-82 | Refuses iff parking is off or the queue is at its ceiling, and else appends a new entry. |
| ParkImpl.Parker.Remove | internal/queue/park.go:123-135 | True iff the entry was still queued; exactly it is gone. |
| ParkImpl.Parker.DrainOneBurst | internal/queue/park.go:183-206 | Releases burst entries, or as many as there are, oldest first, and keeps the rest in order. |
| ParkRaces.NextKeepsInv | internal/queue/park.go:67-206 | Every step keeps: entries in arrival order, depth within maxQueue, every queued entry awaited by the client that made it, every release closed at most once. |
| ParkRaces.ReleasedInOrder | internal/queue/park.go:183-206 | Over every run releases follow arrival order, no channel closes twice, and the depth is bounded. |
| ParkRaces.RemovedExactlyOnce | internal/queue/park.go:67-135 | parkFor reports released iff the drain took the entry, and expired, canceled or shutdown iff the caller took it out itself, each only for its own reason. |
| ParkRaces.NextAdvances | internal/queue/park.go:123-206 | A tick brings every waiter it does not release drainBurst places nearer the front; no step moves one back. |
| ParkRaces.SpliceTakesBurst | internal/queue/park.go:183-206 | A tick moves exactly min(drainBurst, depth) of the oldest entries to the released ones. |
| ParkRaces.BurstBounded | internal/queue/park.go:153-206 | Over every run no more entries are released than ticks times drainBurst. |
| ParkRaces.TickReleases | internal/queue/park.go:153-174 | With someone parked and no yield, three steps of the drain loop release a full burst. |
| ParkRaces.NoTickInYield | internal/queue/park.go:153-174 | While a yield is on no tick starts. |
| ParkRaces.ParkEnds | internal/queue/park.go:67-117 | Every way out of parkFor returns the result that fits what has happened; a client that is gone is canceled even if its hold is over too. |
| ParkRaces.CauseEndsPark | internal/queue/park.go:84-116 | The hold running out, the client hanging up and shutdown each get a parked request out with their own result, if the drain does not come first. |
| ParkRaces.DrainedAfter | internal/queue/park.go:153-206 | With burst b of at least 1, the waiter at index k has left after k/b + 1 non-yielding ticks, whoever arrives, expires or hangs up. |
| ParkRaces.ZeroBurstReleasesNothing | internal/queue/park.go:229-248 | With the burst left at 0 no tick ever releases anyone. |
| ParkRaces.ParkedForGood | internal/queue/park.go:153-248 | A scheduler set to park without a burst parks a request, and no run ever releases anyone. |
| Gate.NextKeepsInv | internal/queue/gate.go:90-188 | Every step of the composed system keeps request, scheduler and park states consistent. |
| Gate.EveryExitPath | internal/queue/gate.go:90-188 | On every path: each successful Acquire is answered by one Release, a parked request owns no slot, the upstream is called at most once while the slot is held, and a finished request recorded exactly one outcome unless the upstream panicked. |
| Gate.AdmittedOnlyWhenClear | internal/queue/gate.go:126-136 | Over every run a request reaches the upstream only if the probe after its last successful Acquire saw no yield, and backs off only if it saw one. |
| Gate.UndisturbedIsServed | internal/queue/gate.go:90-188 | In a run without a yield no request parks or backs off, none is preempted, and one is deferred only because an Acquire of its own failed. |
| Gate.OutcomeSaysWhy | internal/queue/gate.go:90-188 | Each of the eight outcomes is recorded only for its own cause, over every step of the composed system. |
| Gate.YieldOnlyParks | internal/queue/gate.go:91-133 | A batch request that may park is never turned away by a yield: it parks, or tries again. |
| Gate.FreeSlotServes | internal/queue/gate.go:90-188 | From any state of any run, a request that comes while nobody yields and a slot is free can be served at once. |
| Gate.UpstreamNeverOversubscribed | internal/queue/gate.go:134-161 | Never more than maxInflight requests are at the upstream together. |
| Gate.NothingLeftBehind | internal/queue/gate.go:90-188 | When every request is over, no slot is held and both queues and the park queue are empty. |
| Gate.YieldPreempts | internal/queue/gate.go:146-180 | A request at the upstream at any moment of a yield records preempted if it records anything, however late it answers. |
| Gate.LateDispatchIsPreempted | internal/queue/gate.go:126-153 | So does one that passed admission before the yield and dispatches during it, despite the separate Yielding and ServeContext calls. |
| Gate.PanicIsNotRecorded | internal/queue/gate.go:134-188 | A panic in the upstream handler frees the slot and leaves no outcome. |
| Gate.HoldIsPerPark | internal/queue/gate.go:90-104 | From any state in which a request is held, it can park n more times, for every n, each with a new hold and no answer. |
| Gate.HeldIsReachable | internal/queue/gate.go:90-104 | Such a state is reached by a single batch request that meets a yield. |
| DebounceHistory.CounterIsSuffixLength | internal/yield/yield.go:453-467 | The counter is the length of the longest suffix of observations contended for one reason. |
| DebounceHistory.ReportsSustainedContention | internal/yield/yield.go:453-467 | Contention with reason r is reported iff the last confirmPolls observations of the whole history all saw r; nothing is reported iff there is no such reason. |
| YieldImpl.Controller.FilterNil | internal/yield/yield.go:246-266 | Each non-nil unloader keeps its identity at its mapped position, in order, and each nil one maps to -1. |
| YieldImpl.Controller.constructor | internal/yield/yield.go:235-302 | Starts serving in auto mode, nothing in flight, every instance dispatched now, confirmPolls at least 1. |
| YieldImpl.Controller.ConfigureIdle | internal/yield/yield.go:323-337 | Panics exactly on a wrong length or a timeout without an unloader; otherwise each timeout reaches its own instance. |
| YieldImpl.Controller.DebounceLocked | internal/yield/yield.go:453-467 | The in-place counter computes the debounce step and report. |
| YieldImpl.Controller.ApplyLocked | internal/yield/yield.go:486-527 | The yield state follows mode and automatic verdict; a yield beginning cancels the serve context and queues an Unload on every chain, one ending makes a new context, queues a Reload on every chain and restarts every idle clock; otherwise nothing changes. |
| YieldImpl.Controller.CheckIdleLocked | internal/yield/yield.go:567-589 | Without interference exactly the instances that are configured, serving, not in flight, not unloaded and idle for their timeout get one Unload, and none is due afterwards. |
| YieldImpl.Controller.SetModeTo | internal/yield/yield.go:470-477 | After the call the broker yields iff the mode forces it, or is auto and the last confirmPolls observations agree. |
| YieldImpl.Controller.RefreshOn | internal/yield/yield.go:423-432 | After the call contention holds iff the last confirmPolls observations, this one included, all saw one reason; the broker yields iff forced to, or in auto mode with contention; and no instance is left due to be idle-unloaded. |
| YieldImpl.Controller.BeginRequest | internal/yield/yield.go:366-396 | A request counts itself, and alone wakes the instance iff it was idle-unloaded; other instances are untouched. |
| YieldImpl.Controller.EndRequest | internal/yield/yield.go:369-372 | The deferred tail uncounts the request and restarts the idle clock. |
| YieldRaces.NextKeepsInv | internal/yield/yield.go:361-589 | Every step of the interleaved system keeps the serve contexts, the action chains, the in-flight counts, the idle-unload conservation and the agreement of flag and chain. |
| YieldRaces.YieldsIff | internal/yield/yield.go:423-477 | In every reachable state, told from the observations of the whole run: the verdict is contention iff the last confirmPolls observations saw one reason, which it names, and the broker yields iff forced to or in auto mode with contention. |
| YieldRaces.HandlerEndToEnd | internal/yield/yield.go:366-396 | A handler counts itself and stamps the clock, wakes the instance iff its flag is up, and at the end takes its count back and stamps the clock again. |
| YieldRaces.ExecutedInOrder | internal/yield/yield.go:538-543 | The calls an instance has seen are a prefix of the actions queued for it, with at most the last in progress. |
| YieldRaces.NeverDeadlocked | internal/yield/yield.go:625-665 | The earliest unfinished action of an instance can start or finish at once: it waits on its predecessor in the same chain, never on another instance. |
| YieldRaces.ActionRuns | internal/yield/yield.go:625-665 | An action that starts is the next call of its instance, and once it finishes its successor can start. |
| YieldRaces.ServeContexts | internal/yield/yield.go:486-527 | Of the contexts handed out, all but the current one are cancelled, and the current one is cancelled iff yielding; the yield state is the computed one at every unlock. |
| YieldRaces.IdleUnloadsConserved | internal/yield/yield.go:390-583 | Idle unloads equal wakes won, plus yield-clears that found the flag set, plus one if the flag is up. |
| YieldRaces.ControllerAgrees | internal/yield/yield.go:486-589 | In every reachable state: while yielding the last action is Unload iff no wake was queued since the yield began; while serving an instance last told to unload has its flag up or a wake on the way, and with no wake on the way flag and chain agree iff the flag was not put up by an idle unload that crossed a wake. |
| YieldRaces.CrossingIsReachable | internal/yield/yield.go:390-589 | The exception occurs: a run ends serving with the flag up and the wake's Reload last. |
| YieldRaces.InstanceSettles | internal/yield/yield.go:625-665 | Once every queued action has run and no wake is on the way, the instance was last told to unload iff, while yielding, nothing woke it in this yield, or, while serving, its flag is up and did not cross a wake. |
| YieldRaces.ServedInstanceIsUp | internal/yield/yield.go:361-398 | A request past its wake check that the last idle unload did not catch finds the flag down, and, while serving, the instance not last told to unload, or a wake on the way. |
| YieldRaces.IdleUnloadMeetsOnlyLateRequests | internal/yield/yield.go:567-589 | An idle unload meets live traffic iff some request that counted itself after the poller had read inFlight is still in flight; the requests it meets are exactly those. |
| YieldRaces.WakeDuringYieldReloads | internal/yield/yield.go:390-395 | A wake won before or during a yield reloads the instance, which is then never told to unload again, whatever runs, as long as the yield lasts. |
| YieldRaces.WakeDuringYieldIsReachable | internal/yield/yield.go:390-395 | A yield can begin between a won wake and its lock, so that does happen. |
| YieldRaces.ArrivalInWindowIsUnloaded | internal/yield/yield.go:361-398 | Whenever the poller is about to fire, an arriving request is served without a wake and unloaded behind its back. |
| YieldRaces.WindowIsReachable | internal/yield/yield.go:567-589 | Such a moment occurs after one quiet idle timeout. |
| YieldRaces.SweepIsCheckIdle | internal/yield/yield.go:567-589 | With no request in between, the split sweep does what the one-region check does. |
| JobTable.HintBounds | internal/job/sqlite.go:74-111 | The back hint lies behind every row and the front hint before every queued row. |
| JobDeque.SubmitPushesBack | internal/job/sqlite.go:74-111 | Submit is push-back. |
| JobDeque.FrontHintPushesFront | internal/job/sqlite.go:195-239 | Preempt and retry are push-front. |
| JobDeque.ClaimPopsFront | internal/job/sqlite.go:162-184 | ClaimNext picks exactly the front of the line and removes it. |
| JobDeque.LeavesLine | internal/job/sqlite.go:294-316 | A queued job that is cancelled leaves the line wherever it stands. |
| JobDeque.AheadIsPrefix | internal/job/sqlite.go:326-333 | The rows counted ahead of any row are the first so many of the line. |
| JobDeque.PositionIsPlaceInLine | internal/job/sqlite.go:318-334 | Position is the place in the line, counted from 1. |
| JobDeque.PositionIsBijection | internal/job/sqlite.go:318-334 | Positions are a bijection between the queued jobs and 1..n. |
| JobDeque.SweepCharges | internal/job/sqlite.go:241-292 | The sweep charges each running job one attempt and touches nothing else. |
| JobDeque.SweepRecovers | internal/job/sqlite.go:241-292 | The sweep fails an interrupted job that has used its attempts, with its message and end, and requeues any other with its error kept; nothing else is touched. |
| JobDeque.SweepReversesSurvivors | internal/job/sqlite.go:241-292 | The survivors stand in front of the old line in the reverse of the order they were visited. |
| JobStore.Store.Submit | internal/job/sqlite.go:74-111 | A known key returns its row unchanged, a repeated id fails, and any other job is stored as given, queued with no attempts, at the back of the line. |
| JobStore.Store.ClaimNext | internal/job/sqlite.go:162-184 | Claims the queued row with the least hint, which is the front of the line, starts it and clears its error; not found iff nothing is queued. |
| JobStore.Store.MarkSucceeded | internal/job/sqlite.go:186-193 | Takes effect iff the job is running; sets state, result, error and end, keeps attempts, hint and the rest, every other row and the line. |
| JobStore.Store.Requeue | internal/job/sqlite.go:195-202 | Takes effect iff the job is running; it goes to the front of the line, keeps its attempts and all but state, start and hint, and every other row stays. |
| JobStore.Store.ChargeAttempt | internal/job/sqlite.go:220-238 | One attempt more: the job fails with its message and end if that was the last, else it goes to the front of the line. |
| JobStore.Store.FailOrRetryRun | internal/job/sqlite.go:204-239 | Charges a running job, failing it iff the attempts are used up; other states are errors without effect. |
| JobStore.Store.RecoverRunning | internal/job/sqlite.go:241-292 | The loop of per-row updates recovers every running job and leaves every other row alone. |
| JobStore.Store.CancelJob | internal/job/sqlite.go:294-316 | The job is terminal afterwards and returned as it then is, a terminal one unchanged; other rows stay, and the line is the old one without the job. |
| JobStore.Store.CountAhead | internal/job/sqlite.go:326-333 | The second statement counts exactly the part of the line that comes before the row read earlier. |
| JobStore.Store.PositionOf | internal/job/sqlite.go:318-334 | With nothing in between: the place of the job in the line counted from 1, 0 iff it is not queued, not found iff there is no such job. |
| JobRuns.LineFollows | internal/job/sqlite.go:74-316 | After every transaction the queued rows by hint are the abstract line after the matching queue operation. |
| JobRuns.HintsFollow | internal/job/sqlite.go:74-316 | After k insertions at either end every hint lies in [-k, k]. |
| JobRuns.TableIsDeque | internal/job/sqlite.go:74-334 | Over every run with restarts the table is the line: head, positions, distinct hints, bounded hints, unique keys. |
| JobRuns.PositionAcrossCommits | internal/job/sqlite.go:318-334 | Whatever commits between the two statements, the result is the place the row read has in the line at the count, and the job's own place if its row is unchanged. |
| JobRuns.AttemptsAccounted | internal/job/sqlite.go:162-316 | Claims equal preemptions plus attempts plus one if running or ended from running; runs not preempted never exceed maxAttempts; a job is FAILED iff its attempts are used up. |
| JobRuns.TerminalIsFinal | internal/job/sqlite.go:186-316 | A terminal row never changes again; it can only be pruned. |
| JobRuns.CancelIsFinal | internal/job/sqlite.go:294-316 | Whatever transactions follow a Cancel that found the job alive, it stays canceled. |
| JobRuns.RestartOrder | internal/job/sqlite.go:241-292 | A restart leaves nothing running, keeps every job and the old order, and puts the survivors first: in created order iff all were created at one time, newest first iff no two were. |
| WorkerRaces.NextKeepsInv | internal/job/worker.go:113-248 | Every step keeps: each cause that cancels a job context was published before, and remains visible to the questions runJob still has to ask. |
| WorkerRaces.OnlyGeneratorErrorsAreCharged | internal/job/worker.go:161-203 | Outside restarts an attempt is charged only for a Generate that failed while there was no reason to abort it: not canceled, its serve context alive, not preempted, no shutdown, whether or not the job context knew yet, and even if the isCanceled read fails. |
| WorkerRaces.GenuineErrorIsCharged | internal/job/worker.go:161-203 | A run that fails by itself, with nothing there or coming up to abort it, costs its job exactly one attempt; the job is FAILED iff that reaches maxAttempts, and otherwise queued. |
| WorkerRaces.InterruptedIsRequeued | internal/job/worker.go:161-203 | A run that fails once shutdown, a yield or interactive work has given it a reason to leaves its job queued and otherwise as it was. |
| WorkerRaces.GeneratedIsStored | internal/job/worker.go:159-169 | The text that was generated is the result the job succeeds with. |
| WorkerRaces.ClaimsOnlyWhenClear | internal/job/worker.go:113-138 | Over every run jobs are claimed and run only after a probe, made with the slot in hand, that saw no yield. |
| WorkerRaces.MonitorAborts | internal/job/worker.go:210-234 | The monitor cancels the run it watches when its serve context is cancelled, and for interactive work once the quantum is over. |
| WorkerRaces.SpawnCaptures | internal/job/worker.go:145-147 | A run watches the serve context that is current when it is spawned. |
| WorkerRaces.AbortedIsNeverCharged | internal/job/worker.go:161-203 | A run aborted before it failed is never charged, whatever runs until it ends. |
| WorkerRaces.QuantumIsHonoured | internal/job/worker.go:140-238 | A run is requeued for interactive work only if it had been preempted when it failed, and then it failed after its quantum, or if it failed by itself and the monitor overtook it afterwards. |
| WorkerRaces.EarlyFailureRequeuedIff | internal/job/worker.go:140-238 | A run that failed before its quantum and reaches the last question is requeued for interactive work iff the monitor fired after the failure. |
| WorkerRaces.LateMonitorRequeues | internal/job/worker.go:210-238 | From every healthy run before its quantum, a failing Generate followed by a late monitor ends in a requeue although nothing aborted it. |
| WorkerRaces.RunningHoldsSlot | internal/job/worker.go:113-138 | Between restarts every RUNNING job is the one the worker is on, holding the slot, or one whose last write failed. |
| WorkerRaces.CrashLeaves | internal/job/sqlite.go:241-292 | After a crash the sweep finds at most the job the worker was on and those whose last write had failed; with none of the latter at most one. |
| WorkerRaces.ReversalIsReachable | internal/job/sqlite.go:278-288 | A run with one failed write leads to a restart that puts the later of two jobs first. |
| WorkerRaces.CanceledStays | internal/job/service.go:153-172 | Through every race and restart a canceled job stays canceled until pruned. |
| WorkerRaces.DeliveryAbortsRegisteredRun | internal/job/service.go:153-172 | Delivering a Cancel aborts the run iff startRun had registered it. |
| WorkerRaces.CancelCanMissTheRun | internal/job/service.go:224-237 | A Cancel between the claim and startRun leaves the run alive; the job is generated, and Succeed then changes nothing. |
| WorkerRaces.GapIsReachable | internal/job/worker.go:130-144 | A state between the claim and startRun is reached, so that gap can be hit. |
| ServeBridge.StepMovesServe | internal/yield/yield.go:486-527 | Every controller step keeps the serve context and the cancelled ones, except that a yield beginning cancels the current one and a yield ending makes the next. |
| ServeBridge.RunsAgree | internal/queue/gate.go:126-153 | Every controller run is a run of the Gate's view of it, with the same yield state, current context and cancelled contexts throughout. |
| ServeBridge.RunsAgreeForWorker | internal/job/worker.go:145-147 | The same for the worker's view. |
| ServeBridge.StepIsSetYielding | internal/yield/yield.go:486-527 | One controller step is the matching yield step of the Gate, with the same contexts cancelled. |
| ServeBridge.StepIsSetYieldingForWorker | internal/yield/yield.go:486-527 | The same for the worker. |
| Broker.NextKeepsInv | cmd/broker/main.go:73-154 | Every step of the whole broker keeps the three invariants, the agreement on contexts, and the worker's claim to its slot. |
| Broker.CancelledContextPreempts | internal/queue/gate.go:146-180 | Over every run: once the controller has cancelled the context a request runs under, the request records preempted if it records anything. |
| Broker.YieldPreempts | internal/queue/gate.go:146-180 | In particular a request at the upstream at any moment at which the controller yields. |
| Broker.LateDispatchIsPreempted | internal/queue/gate.go:126-153 | And one admitted before the yield that takes its serve context during it. |
| Broker.PreemptedIff | internal/queue/gate.go:173-186 | The outcome recorded is preempted iff the controller has cancelled the request's context. |
| Broker.YieldedIff | internal/job/worker.go:174-183 | runJob takes a failed run for yielded iff the controller has cancelled the context it captured. |
| Broker.YieldedRunIsNeverCharged | internal/job/worker.go:161-203 | A run whose Generate fails after the controller cancelled its context is never charged for it. |
| Broker.GpuNeverOversubscribed | internal/queue/scheduler.go:112-157 | Requests at the upstream and a job being run together never exceed the scheduler's slots; with one slot they exclude each other. |
| Broker.RunningOwnsSlot | internal/job/worker.go:113-138 | A RUNNING job owns a slot of the scheduler through the worker, or its last write failed. |
| Broker.PreemptsOnlyForWaiting | internal/job/worker.go:236-238 | The monitor preempts only after the quantum and while an interactive request waits with every slot in use. |
| Config.CheckModels | internal/config/config.go:363-379 | Accepts iff no model is empty, repeated in the route, or routed before. |
| Config.LookupsDecide | internal/config/config.go:330-412 | Looking a route up in the three seen maps is the same as comparing it with every earlier instance. |
| Config.CheckRoute | internal/config/config.go:353-438 | One pass accepts exactly a route that obeys its own rules and fits everything before it. |
| Config.AcceptedIsUnambiguous | internal/config/config.go:252-438 | An accepted configuration has at most 16 routes, no URL or unit name twice, no model with two routes, and a unit wherever there is an idle timeout. |
| Config.RouteReads | internal/config/config.go:356-438 | Each route holds what its variables say: its family, URL, trimmed unit and models in order, timeout and lane. |
| Config.Load | internal/config/config.go:252-438 | Accepts exactly the environments whose idle timeouts have unit names, whose indices have no gap and stay within 16, and whose models, URLs and unit names are unique. |
| Wiring.LoadedIsBacked | internal/config/config.go:256-421 | In every accepted configuration each backend with an idle timeout has an unloader. |
| Wiring.DrivesUnloaders | cmd/broker/main.go:452-466 | The controller drives exactly the ollama backends and those with a unit name. |
| Wiring.BuildBroker | cmd/broker/main.go:360-466 | With routes, panics exactly when a timeout has no unloader; otherwise each decorated backend is tracked at its own unloader with its own timeout. |
| Wiring.Start | cmd/broker/main.go:360-466 | Every accepted environment is wired without a panic, index by index through the nil filter. |
| Strings.TrimRightEnds | internal/openaicompat/stream.go:122-123 | Trimming returns a prefix that does not end in white space, and the whole string iff it did not. |
| Strings.TrimSpaceCuts | internal/openaicompat/stream.go:122-123 | Trimming cuts all white space off both ends and nothing else. |
| Strings.SplitThenJoin | internal/config/config.go:363-379 | The pieces of a split hold no separator, and joined with it they are the string again. |
| Sse.FlushEvent | internal/openaicompat/stream.go:71-107 | The flush closure does nothing without data lines, and else what the joined event says. |
| Sse.Parse | internal/openaicompat/stream.go:62-177 | The incremental loop computes the meaning of its lines, for every point of cancellation and for a failing scanner. |
| Sse.CompletesIff | internal/openaicompat/stream.go:78-92 | A stream completes iff a [DONE] event comes after nothing but well-formed chunks. |
| Sse.OutcomeOfWhole | internal/openaicompat/stream.go:62-177 | A stream read to its end ends as its first event that is not a chunk calls for: complete, a decoding error, or the upstream's message, and with an error about the missing [DONE] if there is none. |
| Sse.OutcomeOfInterrupted | internal/openaicompat/stream.go:109-177 | A stream that is cancelled or fails ends as its closed events call for, and else with the cancellation or the read error. |
| Sse.CompletedText | internal/openaicompat/stream.go:93-135 | It then returns the chunks' text before [DONE] run together, which is the reported deltas, and counts the last usage reported, or the number of deltas if there is none or it is negative. |
| Sse.InterruptedIsPrefix | internal/openaicompat/stream.go:109-155 | Cancelling or a failing read only shortens what was reported. |
| Sse.DataLineReadBack | internal/openaicompat/stream.go:122-146 | A rendered data line is read back without the white space at its end, so unchanged iff it has none. |
| Sse.SpaceIsOptional | internal/openaicompat/stream.go:182-189 | The one space after the colon need not be there. |
| Sse.OtherLinesIgnored | internal/openaicompat/stream.go:141-146 | A comment or another field changes no event wherever it stands. |
| Sse.ScanDelivers | internal/openaicompat/stream.go:68-69 | The scanner takes either line ending, and does not ask for one after the last line. |
| Sse.EventsReadBack | internal/openaicompat/stream.go:122-146 | Rendered events are recovered exactly and in order. |
| Sse.BodyRoundTrip | internal/openaicompat/stream.go:62-177 | From rendered body through line scanning to the result: the chunks' text up to the first [DONE] and its token count. |

## Left out

- Gate and worker loops: modelled as step relations over program points, since their point is what other goroutines do between two points; the durations they measure and `wasParked` are not modelled.
- SchedulerImpl.Scheduler.TryAcquire: stands for Acquire up to the `select`; the `select` and what follows are the steps of SchedulerRaces.
- YieldImpl.Controller.BeginRequest: describes a handler nothing interleaves with; the interleavings are those of YieldRaces.
- Broker.NextKeepsInv: joins one scheduler with one controller; the embed lane is a second Gate on a scheduler of its own, and the handlers that count activity in YieldRaces are not tied to particular Gate requests.
- Integer widths: the 32-bit inFlight counters and the 64-bit clock values are unbounded here; the 64-bit hints are too, and are proved to stay within the number of insertions.
- Job ids and channels are numbers that are only compared for equality or numbered in the order they are made.
- Database errors: WorkerRaces lets a terminal write and the isCanceled read fail; an error inside any other transaction leaves the table as it was and is not a step. SQL, fsync and query planning are not modelled.
- The row a claim picks among equal hints and equal creation times is arbitrary; hints are proved distinct, so there is no such choice.
- Prune deletes arbitrary terminal rows, because which ones depends on the clock; StampFetched, List, Counts and Get are single statements.
- The GPU manager's pause and resume calls, instance labels, Snapshot and IdleSummary, which no control decision reads.
- Detector, clock and schedules: observations are arbitrary, and time is a number that never decreases.
- Changing limits while serving: the setters are documented as start-up only.
- Choosing a route for a request: one map lookup and one lane test.
- The HTTP handlers, headers, Retry-After values, request ids, metrics, logs, and job events to subscribers, which are lossy by design.
- JSON decoding is an arbitrary function of the event text; the scanner's line-length limit is one of the ways a read can fail; the scanner's own buffering is not modelled.
- URL and duration parsing: what they yield is part of the environment record in Config.
