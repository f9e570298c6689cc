# testcontainerd, modelled and proved in Dafny

testcontainerd lets many independent test processes share one daemon, one set of containers and one
service under test (SUT). This project models the four state machines on which that sharing rests and
proves their guarantees for every interleaving, every run or every input.

* `Leases.dfy`, `Heartbeats.dfy`: the daemon's lease store, what a history of requests means to the
  clients, and the client's heartbeat loop that keeps a lease alive.
* `Reaper.dfy`: the reaper loop with its two idle timers, against a history specification; how far the
  stop of the SUT and the shutdown are apart, and how soon an abandoned daemon is reclaimed.
* `Containers.dfy`, `WorkerPool.dfy`, `Bundles.dfy`, `Lifecycle.dfy`: the container runtime with a log of its
  calls, the bounded worker pool that starts containers, the all-or-nothing bundle around it, and the
  daemon's serialised entry points to the bundle.
* `DaemonCore.dfy`: any number of Acquire handlers, heartbeats and releases against the start lock, the
  reaper's tick with its separate reads, and the idle shutdown. `DaemonTicks.dfy`: that tick refines the
  reaper's loop. `EndToEnd.dfy`: what heartbeats and daemon together guarantee to a client.
* `SutTypes.dfy`, `SutOwnership.dfy`, `SutManager.dfy`, `SutReady.dfy`: who is responsible for each process
  of the service, the manager's code inside its lock, and the readiness probe.
* `StartRace.dfy`: any number of client processes racing over the start lock and the runtime file.
  `StartSafety.dfy`, `StartRemoval.dfy`, `StartLock.dfy`: what every run keeps, without a stale runtime file,
  with one, and whatever is in it; `StartProgress.dfy`: when an attempt may fail, and who connects.
  `StartRuns.dfy`, `StartBoundary.dfy`, `StartLate.dfy`: the runs beyond, and so exactly when the guarantees
  hold. `AutoStart.dfy`: the timed loops of one such client, and what it leaves behind.

Concurrency is modelled by transition systems: an `Action` is one critical section, atomic access, file
operation or dial; `Enabled` and `Do` say when it can happen and what it does; a run is any sequence of
actions. What happens between two points of interference is a method of a class, or a method with the
loop of the source, proved against a specification. Start, Init and Terminate of containers, dials,
process exits, and the behaviour of other processes are arbitrary. Times are integers in milliseconds.

`dafny verify dfyconfig.toml` checks the whole project.

## Where the code and its documentation differ

* The user's guide says that the containers are destroyed the daemon's idle TTL *after* the SUT was
  stopped. In the code both timers start at the same tick, so the shutdown follows the stop by the
  difference of the TTLs, give or take a tick (`Reaper.StopToShutdown`); the rule fails for all TTLs
  (`Reaper.ShutdownTooSoon`). With the reaper's ticker it can hold if and only if stopping the SUT may hold
  up the reaper for the daemon's whole TTL, and the SUT's TTL, rounded up to a tick, is below that
  (`Reaper.DocumentedGapIff`); with ticks one period apart it never does (`Reaper.EvenTicksNever`).
* A lease that is granted and runs out between two ticks of the reaper is never seen by it, and the
  reaper's period equals the lease TTL. An idle daemon is then shut down too early
  (`Reaper.UnseenLease`); `Reaper.ReclaimedNotTooEarlyIff` says exactly when it is not.
* The design document says that at most one SUT process is managed at a time. At most one is *tracked*,
  but two can be alive, because `stop` gives the manager's lock back before the old process has exited:
  two are at large only while a stop call deals with one of them
  (`SutOwnership.AtMostOneApartFromStops`), and whenever one does, a second can come to be
  (`SutOwnership.SecondAtLarge`).
* The design document says that the in-flight counter keeps the reaper from shutting down in the window
  before a lease is stored. The reaper reads the two counts one after the other, so that is not so for a
  request that is granted between the reads or that enters after them
  (`DaemonCore.SplitTickRace`). `DaemonCore.TakesAwayIffLatecomer` gives the exact condition, and
  `DaemonCore.ProtectedInterval` the guarantee for ticks that nothing of the kind disturbs.
* The idle shutdown stops the containers before it closes the server. A request that is let in between
  starts them again, and the daemon goes down without stopping them (`DaemonCore.StartDuringShutdown`);
  without such a start they stay down (`DaemonCore.ContainersStayDown`).
* The pool stops starting containers once a failure has been followed by the cancel of its context
  (`WorkerPool.NoStartAfterCancel`), not once it has been reported: a slow worker may report a failure, and
  all the other Starts be called before it cancels (`WorkerPool.AllStartBeforeCancel`).
* The start lock and the runtime file are to keep concurrent clients from starting two daemons. They do
  exactly under the conditions of `StartBoundary.SingleDaemonIff`: no stale runtime file is left behind,
  the owner of the lock is prompt enough for its lock not to look stale, and the daemon publishes while
  its owner waits; a client that is alone needs only that the daemon publishes before its second attempt.
* The start lock is to let one client at a time into the owner's section, and a lock is to look stale only
  if its owner is gone. `StartBoundary.LooksStaleIff` says exactly how prompt a living owner has to be: 90 s
  must suffice for its untimed work with a failed spawn, and for that work, its daemon's way to the runtime
  file, and one poll and one dial of it. For exclusion it is enough that there is a runtime file by then
  (`StartBoundary.ExclusiveIff`). If a stale file may be removed late, 90 s must suffice for a wait in vain,
  too. Daemons that publish after their owners' waits race for the shared temporary file; one of them then
  fails to rename it and exits, and the runtime file can hold its dead address (`StartLate.DeadFileRace`).

## Model

| member | source | states |
|---|---|---|
| Leases.LeaseStore.Acquire | daemon/lease_store.go:26-38 | the stored lease expires one TTL after a stamp that was read before the lock; the new map |
| Leases.LeaseStore.Heartbeat | daemon/lease_store.go:40-52 | accepted exactly when the lease is in the map, and only then renewed |
| Leases.LeaseStore.Release | daemon/lease_store.go:54-62 | the lease is gone afterwards; answered by whether it was there |
| Leases.LeaseStore.ActiveCount | daemon/lease_store.go:64-76 | the loop counts exactly the leases that expire after the given time |
| Leases.LeaseStore.Gc | daemon/lease_store.go:78-86 | the loop removes exactly the expired leases |
| Leases.ActiveMatchesHistory | daemon/lease_store.go:26-86 | in every history, the active leases are those acquired, unreleased, whose last accepted beat is younger than the TTL; collection is invisible |
| Leases.HeartbeatAcceptedIff | daemon/lease_store.go:40-62 | a beat, or a release, is accepted if and only if the lease was beaten before and since then neither released nor collected after its expiry |
| Leases.GoneStaysGone | daemon/lease_store.go:40-62 | after a release or a collection no later heartbeat revives the lease and no release succeeds |
| Leases.GcIsInvisible | daemon/lease_store.go:64-86 | inserting a collection changes no later count, unless an expired lease is beaten afterwards, and then only by such leases |
| Leases.LateBeatRevives | daemon/lease_store.go:40-52 | the proviso is needed: an expired, uncollected lease is revived by a late beat |
| Heartbeats.StartHeartbeat | client/heartbeat.go:11-31 | the ticker loop with synchronous beats: each beat is for the first tick after the one before was sent, at once or when that one is answered; the ticks in between are dropped; none after the stop but for a waiting tick |
| Heartbeats.BeatInEveryGap | client/heartbeat.go:15-29 | until the stop there is a beat in every interval as long as a tick interval or the slowest round trip |
| Heartbeats.PromptBeatsFollowTicks | client/heartbeat.go:15-29 | with round trips below a second the k-th beat goes out with the k-th tick, for every tick before the stop, and there are no others after it |
| Heartbeats.DeliveredIsOnSchedule | client/heartbeat.go:15-29 | delivering the loop's beats meets the schedule that the next theorem asks for, slow round trips included |
| Heartbeats.HeartbeatKeepsLease | testcontainerd.go:203-215 | if response delay, gap between beats and beat delay together stay below the TTL, the lease is active at every moment up to the arrival of its release, in runs of any length, whatever other clients and the collector do |
| Reaper.LoopReaper | daemon/server.go:250-296 | both timers are equal at every loop head; the SUT is stopped at exactly the ticks where the running idle stretch has lasted its TTL, the daemon at the first where it has lasted the daemon's |
| Reaper.DueIffIdleFor | daemon/server.go:262-293 | that condition is: every tick of some stretch, at least the TTL long, up to this one was idle |
| Reaper.QuietTickIsBusyIff | daemon/server.go:260-269 | when nobody touches the store any more, a tick is busy if and only if some lease expires after it |
| Reaper.StopToShutdown | daemon/server.go:279-292 | in one idle stretch, shutdown and first stop of the SUT are apart by the difference of the TTLs, less than one tick distance more or less |
| Reaper.ShutdownTooSoon | daemon/server.go:279-292 | the documented rule, shutdown a daemon's TTL after the SUT's stop, fails for all TTLs |
| Reaper.DocumentedGapIff | daemon/server.go:250-292 | with a ticker of one place that fires every period, and of whose ticks only the one that stops the SUT can take long, the rule holds for some ticks if and only if that one may take the daemon's TTL and the SUT's, rounded up to a tick, is below it |
| Reaper.EvenTicksNever | daemon/server.go:250-292 | with ticks one period apart the shutdown comes less than the daemon's TTL after the SUT's stop, for all TTLs |
| Reaper.ReclaimedInTime | daemon/server.go:259-293 | an abandoned daemon shuts down less than its TTL and two tick distances after the last activity and the last expiry, whatever ticks went before |
| Reaper.Reclaimed | daemon/server.go:286-293 | and it does shut down, if ticks keep coming |
| Reaper.ReclaimedNotTooEarlyIff | daemon/server.go:259-293 | it stays up for its TTL after the last expiry, however the ticks go on, if and only if the next tick still sees the lease, or the idle timer is not running from before the expiry, or the next tick comes a TTL late |
| Reaper.FrequentTicksSee | daemon/server.go:251-268 | ticks that come more often than leases run out always see the lease |
| Reaper.UnseenLease | daemon/server.go:251-268 | with the reaper's own period, a lease granted right after an idle tick can run out unseen, and the daemon is shut down at its expiry |
| WorkerPool.RunInv | container/bundle.go:142-188 | in every interleaving, jobs queued, held, reported and skipped partition the registrations, and for each it is known whether its Start was called and what that returned |
| WorkerPool.SendNeverBlocks | container/bundle.go:148-169 | the results channel is never full when a worker has a result to send |
| WorkerPool.StartsOverlapAtMost | container/bundle.go:149-164 | never more than min(4, n) Starts overlap |
| WorkerPool.Progress | container/bundle.go:155-188 | the pool never deadlocks |
| WorkerPool.StepDecreases | container/bundle.go:155-188 | every step is progress towards a drained pool |
| WorkerPool.FinalPool | container/bundle.go:139-196 | a drained pool has reported what every Start returned once; it is cancelled if and only if one has failed; with a live parent and no failure every registration was started |
| WorkerPool.RunPool | container/bundle.go:139-188 | for every scheduling the pool terminates in such a state, and its answers are those of the calls of Start that it made, each made once; none in a cancelled context |
| WorkerPool.NoStartAfterCancel | container/bundle.go:159-167 | from the cancel after a failure on, in every run, no Start is called, at most three return, and every job not begun by then is skipped |
| WorkerPool.NoStartIfCancelled | container/bundle.go:159-162 | with a context cancelled at the outset nothing is started |
| WorkerPool.AllStartBeforeCancel | container/bundle.go:163-167 | before the cancel there is no bound: with a failure reported, all other Starts can still be called |
| WorkerPool.StartsCanOverlap | container/bundle.go:149-163 | and min(4, n) Starts can overlap |
| Bundles.TrimSpaceKeepsMiddle | container/bundle.go:39 | trimming keeps exactly what lies between the first and the last character that is not a space |
| Bundles.RawNamesDiffer | container/bundle.go:37-48 | names that are distinct after trimming are distinct map keys |
| Bundles.NewBundle | container/bundle.go:33-57 | accepted if and only if there are registrations, all named, startable and distinct; which error otherwise |
| Bundles.CollectResults | container/bundle.go:177-187 | the collector keeps every reported container under its name, and the first failure |
| Bundles.TeardownAppend | container/bundle.go:199-227 | teardown order is the reverse of registration order |
| Bundles.TeardownIsExact | container/bundle.go:199-227 | each container is terminated as often as it is listed, and nothing else is |
| Bundles.TornDownOnce | container/bundle.go:199-227 | once, if no two of the listed containers are the same |
| Bundles.Bundle.TerminateCreatedContainers | container/bundle.go:199-212 | the loop tears down exactly what was created, in reverse registration order, and skips what is missing or nil |
| Bundles.Bundle.StopAllContainers | container/bundle.go:214-227 | the loop tears down the cleanup list in reverse, going on after errors, and reports a failure exactly if one occurred |
| Bundles.Bundle.StartAllContainers | container/bundle.go:133-197 | fails exactly if a Start has failed, and reports one that did; then everything created is torn down; otherwise, with a live parent, every registration has the container that its Start returned |
| Bundles.Bundle.StartAll | container/bundle.go:60-97 | all or nothing from a clean bundle with a live context; reports a failed Start or Init exactly if there was one; every handle that a Start ever returned is listed or was told to terminate, in every case; the missing-container branch only after a cancelled parent |
| Bundles.Bundle.Record | container/bundle.go:72-81 | one entry per registration, in order, in all three tables; or the prefix of all three that the missing-container branch leaves behind |
| Bundles.Bundle.RunInits | container/bundle.go:83-93 | Init phases run in registration order, and fail exactly if one failed; the first failure rolls everything back |
| Bundles.InitCallsInOrder | container/bundle.go:84-87 | that order: one call for each registration that has an Init, by ascending position |
| Bundles.Bundle.StopAll | container/bundle.go:100-108 | clean after success, unchanged after a failed termination; conservation either way |
| Lifecycle.Infra.EnsureInfraStarted | daemon/lifecycle.go:8-22 | the flag always equals the bundle's; a second call starts nothing; a call fails only if a Start or an Init has failed or the context was cancelled; a failed one leaves a clean bundle clean |
| Lifecycle.Infra.StopContainersOnly | daemon/lifecycle.go:24-36 | tears everything down; the flag stays set if a termination failed |
| DaemonCore.OneInfrastructure | daemon/lifecycle.go:8-36 | starts and stops of the containers exclude each other; outside the start lock the flag says whether they are up; at most one start succeeds before the shutdown, and every lease is granted while they are up |
| DaemonCore.GrantFollowsReadiness | daemon/server.go:174-187 | whoever can grant a lease has found or started the containers and after that made the service ready, and has been on its way ever since |
| DaemonCore.InFlightCountsHandlers | daemon/server.go:165-166 | in every run the in-flight counter is the number of handlers inside handleAcquire |
| DaemonCore.StampWasRead | daemon/lease_store.go:26-38 | the stamp of a lease is the time of a moment after everything was ready |
| DaemonCore.FailedStartIsFinal | daemon/server.go:174-180 | a request for which the containers could not be started is answered with an error, in every run: no retry, no lease |
| DaemonCore.ReadyIsGranted | daemon/server.go:181-191 | a request for which everything is ready is not given up before its lease is granted |
| DaemonCore.NobodyIsStuck | daemon/lifecycle.go:8-36 | in every run each handler can go on, or waits for the start lock whose holder can; each own step brings it nearer to its end |
| DaemonCore.ServerStaysClosed | daemon/server.go:298-312 | the server is closed after the service and the containers were stopped; from then on, in every run, no request is let in, and the reaper is at rest; if nobody was inside, containers and leases stay as they are |
| DaemonCore.ContainersStayDown | daemon/server.go:303-304 | in every run after the shutdown has stopped the containers, they are down unless a start has succeeded since |
| DaemonCore.StartDuringShutdown | daemon/server.go:304-309 | the proviso is needed: a request let in before the server is closed leaves them running |
| DaemonCore.TakesAwayIffLatecomer | daemon/server.go:259-293 | in every run, a step takes an environment away from a live lease or a handler that counts on it if and only if it is a teardown that meets one granted between, or entered after, the tick's reads |
| DaemonCore.BrokenIffLatecomer | daemon/server.go:259-293 | these steps, and no others, break a protected interval that was unbroken before |
| DaemonCore.ProtectedInterval | daemon/server.go:165-191 | with ticks not so disturbed, nothing is stopped from the moment it is ready for a handler until the lease it grants is released or expires |
| DaemonCore.SplitTickRace | daemon/server.go:262-291 | a concrete run, for any TTLs, in which a live lease loses SUT and containers between the split reads |
| DaemonTicks.TicksRefineLoop | daemon/server.go:250-296 | in every run of the concurrent daemon the shutdown comes only at the first tick at which the idle stretch has lasted the daemon's TTL, and the reaper stops the SUT only where it has lasted the SUT's |
| DaemonTicks.TickActsIffDue | daemon/server.go:279-292 | and a tick that finds nothing acts if and only if that is due |
| EndToEnd.ClientKeepsEnvironment | testcontainerd.go:203-215 | a client whose beats are on schedule keeps its lease, and containers and SUT made ready for it are not stopped, until its release arrives, in every run with undisturbed ticks |
| SutReady.Round | daemon/sut_manager.go:299-307 | one probe round fails for exactly the addresses that do not answer |
| SutReady.WaitSettled | daemon/sut_manager.go:277-291 | without addresses, the first of exit, cancellation and 400 ms decides |
| SutReady.WaitSUTReady | daemon/sut_manager.go:275-326 | success exactly at the first single round in which all addresses answer; goes on only while there is time and neither exit nor cancellation; over within timeout + 150 ms + 500 ms per address |
| SutManager.ExitChannel.TryReceive | daemon/sut_manager.go:212-225 | the exit result is received at most once; afterwards the channel ends |
| SutManager.Manager.IsRunningLocked | daemon/sut_manager.go:208-225 | true exactly for a tracked process whose exit is not in; otherwise nothing is tracked afterwards |
| SutManager.Manager.EnsureStarted | daemon/sut_manager.go:69-152 | succeeds exactly if the probe does: the new process is tracked, every address answered in one single round, the first such; on failure nothing is tracked and the spawned process is told to terminate; restarts are starts minus one; the lock is held for a bounded time |
| SutManager.Manager.TakeForStop | daemon/sut_manager.go:154-171 | takes the running process out of the manager |
| SutManager.Manager.FinishStop | daemon/sut_manager.go:174-189 | the earliest of exit, cancellation and grace period decides; without a noticed exit the process is told to terminate; over within grace period and 5 s |
| SutOwnership.EveryProcessHasAKeeper | daemon/sut_manager.go:69-190 | in every interleaving each process is tracked, or owned by exactly one call, or exited, or told to terminate |
| SutOwnership.CommitNeverOverwrites | daemon/sut_manager.go:144-151 | nothing is tracked when a new process becomes the tracked one; both references are set and cleared together; one call in the lock |
| SutOwnership.AtMostOneApartFromStops | daemon/sut_manager.go:154-190 | two processes are at large only while a stop call deals with one of them |
| SutOwnership.TwoAtLarge | daemon/sut_manager.go:167-172 | a concrete run with two live processes |
| SutOwnership.SecondAtLarge | daemon/sut_manager.go:154-190 | whenever a stop call deals with a process that is still at large, some run leads to a second one at large beside it |
| SutOwnership.CallEndsWith | daemon/sut_manager.go:69-240 | in every run, how a call ends: ensureStarted with a running process, its own new one, or that told to terminate and none tracked; stop with none running, or its process exited or told to terminate and not tracked |
| SutOwnership.TrackedWasReady | daemon/sut_manager.go:138-147 | in every run, a tracked process was found ready before |
| SutOwnership.NoCallIsStuck | daemon/sut_manager.go:69-250 | in every run, no call waits for ever for a process: it can go on without its exit, or waits for the lock whose holder can; each own step brings it nearer to its end |
| SutOwnership.ExitConsumedOnce | daemon/sut_manager.go:124-134 | the exit result is consumed at most once, and only after the exit |
| SutOwnership.ReceiveNeverBlocks | daemon/sut_manager.go:125-134 | in every run after an exit in which the waiting goroutine sends and later closes, whatever interleaves, the channel is readable in the end, even if it was drained |
| SutOwnership.ClosedStaysReadable | daemon/sut_manager.go:132-133 | and it stays readable in every later run |
| StartBoundary.ExclusiveIff | client/autostart.go:20-83 | with daemons that publish while their owners wait, the start lock excludes in every run if and only if there is one client; or no stale file and a prompt owner; or a stale file and an owner that is prompt even if its wait is in vain, and throughout, or with a single rival only and short file operations |
| StartBoundary.SingleDaemonIff | client/client.go:92-135 | never more than one daemon in any run if and only if the client is alone and the daemon publishes before its second attempt, or the owner is prompt and there is no stale runtime file |
| StartBoundary.LooksStaleIff | client/autostart.go:128-142 | with such daemons the lock never looks stale if and only if the owner is prompt throughout, and, where a stale file can be removed late, also if its wait is in vain |
| StartSafety.StartLockExcludes | client/autostart.go:25-82 | at most one client in the owner's section, from every start with one client, or with a prompt owner and no stale file |
| StartSafety.OwnerKeepsLock | client/autostart.go:72-77 | the owner's lock stays its own: whoever finds it stale finds a runtime file, too |
| StartSafety.LockStaysYoung | client/autostart.go:72-77 | with an owner that is prompt throughout, the lock is always younger than 90 s; with one client or without a stale file |
| StartRemoval.ExclusiveDespiteRemoval | client/autostart.go:25-82 | with a stale file that somebody may remove late, at most one client is in the owner's section, and nobody takes its lock away, under the condition of ExclusiveIff |
| StartRemoval.YoungDespiteRemoval | client/autostart.go:128-142 | and the lock never looks stale, if the owner is prompt throughout, too |
| StartLock.LockIsKept | client/autostart.go:20-83 | from every start, however late the daemons and whatever they do to the files: if 90 s suffice for the longest section, with two dead addresses probed to the end, the lock stays young and excludes |
| StartLate.LateIff | client/autostart.go:20-83 | with three clients and daemons that publish very late, that condition is exact, for exclusion and for the lock not to look stale |
| StartLate.DeadFileRace | tcdruntime/file.go:60-65 | the run behind it: daemons race to rename one temporary file, the loser exits and leaves its address behind, an owner meets that twice, and a second owner enters |
| StartSafety.SingleDaemon | client/client.go:92-135 | never more than one daemon, from every start under its condition |
| StartSafety.ConnectedToDaemon | client/client.go:92-135 | every connected client holds that daemon's address and token; nobody removes its runtime file |
| StartSafety.RuntimeFileIsNeverTorn | tcdruntime/file.go:48-66 | a reader finds what was there at the start or the whole file of a daemon that listens already |
| StartProgress.EverybodyConnects | client/client.go:92-135 | where there is one daemon at most: once its runtime file is published, in every run, nobody gives up any more; every client can always go on, and is connected after eleven own steps unless it had given up before |
| StartProgress.GivesUpOnlyInVain | client/client.go:92-135 | in every run, a client that has given up has failed in two attempts, each at a moment without a runtime file after a wait, or after a dial in vain |
| StartProgress.AttemptFailsOnlyInVain | client/client.go:106-132 | in any state, an attempt fails only after a wait without a runtime file or a dial in vain, and a client gives up only in its second |
| StartProgress.StartFailsIff | client/autostart.go:25-82 | in any state, the start of a daemon fails exactly if the lock file cannot be created, the deadline has passed, or the own section has failed |
| StartProgress.SectionFailsIff | client/autostart.go:31-66 | which fails exactly if nothing could be built, or no runtime file appeared in time, or its address does not listen |
| StartProgress.RetriesOnlyIf | client/autostart.go:25-81 | the lock is tried again only before the deadline or after the removal of a stale one; and only a lock that is 90 s old is removed, when there is no runtime file |
| StartProgress.RemovedOnlyIfUnreachable | client/client.go:97-105 | the runtime file is removed exactly after its address was dialed in vain and does not listen |
| StartProgress.ConnectsOnlyIfAnswered | client/client.go:95-100 | a client connects only to the address that has just answered |
| StartBoundary.SomeRunConnects | client/autostart.go:31-66 | from every start any client can be the one that starts the daemon and connects |
| StartBoundary.SlowOwnerRace | client/autostart.go:72-77 | with an owner that is not prompt, and any other clients, some run has two owners and some run two daemons: by a silent daemon, or by a failed spawn |
| StartBoundary.StaleFileRace | client/client.go:101-104 | with a stale runtime file and two clients among any others, some run has two daemons |
| StartBoundary.SlowRemoverRace | client/client.go:101-104 | and some run two owners, for every owner outside the condition of ExclusiveIff |
| StartBoundary.OldLock | client/autostart.go:128-142 | with an owner that is not prompt throughout, some run of any client has a lock that looks stale |
| StartBoundary.OldLockInVain | client/client.go:101-104 | so has some run with a late removal, if the owner is not prompt when its wait is in vain |
| StartBoundary.LateDaemonRace | client/autostart.go:59-62 | with a daemon that publishes after its owner's wait, another client spawns a second one |
| StartBoundary.VeryLateDaemon | client/client.go:106-117 | and later still the same client does |
| AutoStart.Wait | tcdruntime/file.go:33-45 | returns at the first poll that finds the file, gives up only after the deadline, within one poll of it |
| AutoStart.WaitFinds | tcdruntime/file.go:33-45 | a file that is readable for one polling period before the deadline is found |
| AutoStart.WaitRuntimeAlive | client/autostart.go:85-98 | the result of the last dial, all earlier ones having failed; bounded time |
| AutoStart.OwnerSection | client/autostart.go:31-66 | takes the lock and gives it back; reuses a daemon that answers; spawns one only if there was no runtime file, or one whose address failed every dial of three seconds, which it has removed; fails only if the build or launch failed, or after waiting ten seconds, or three, for a file, or dialing for five |
| AutoStart.AutoStartDaemon | client/autostart.go:20-83 | returns within the deadline and a constant although the stale branch skips the deadline check; for each ending, what was found in the files and what the client has done; removes only locks that are 90 s old, when there is no runtime file |
| AutoStart.Client.ConnectOrStart | client/client.go:92-135 | ends with the address of a runtime file that answered when it was read, or with an error after two attempts, each with its trial to start a daemon and its reason to fail; every deed on the way is justified and the lock given back; bounded time; reuses a reachable daemon |
| AutoStart.AloneConnects | client/client.go:92-135 | a client that is alone, with or without a stale runtime file, spawns exactly one daemon and connects to it, in its first attempt |
| AutoStart.UpConnects | client/client.go:106-132 | if from three seconds after its start at the latest there is always a runtime file whose address answers, the client connects, unless it has removed two dead files before |
| AutoStart.DeadAddressesEveryTime | client/client.go:94-132 | the exception is needed: dead addresses that keep coming use up both attempts |

## Left out

- HTTP, JSON, the token check and status codes: handlers appear as steps on the daemon's state.
- Docker itself and the cleanup of orphans at the daemon's start: Start, Init and Terminate may do anything.
- Handles that Start returns together with an error: the source drops them, and so does the model.
- exec, signals, process groups and log files: a process is spawned, told to terminate, and exits; the interrupt that stop sends first has no effect of its own.
- Parsing of probe addresses, merging of environments, copying of the executable, sanitising of paths, random ids: lease ids are fresh, probe addresses are already normalised.
- Validation of the configuration other than the registrations': each check is one branch.
- Shutdown by signal: it takes the same steps as the idle shutdown; the daemon's guarantees are stated for that.
- The end of the process: the three seconds that the closing server gives to running requests; handlers that are inside then may go on.
- Crashes of an owner of the start lock, and failing file operations on the lock: the removal of a stale lock succeeds.
- The owner's untimed work (file operations, building and spawning the process, the daemon's way to its runtime file) is bounded by `StartRace.Bounds`; the equivalences hold for all bounds.
- StartBoundary.ExclusiveIff: covers daemons that publish within their owners' wait of 10 s. Beyond, StartLate.LateIff is exact from 100 s on with three clients; in between, and with two clients, only the sufficient condition of StartLock.LockIsKept is proved.
- StartBoundary.LooksStaleIff: likewise.
- StartLate.LateIff: likewise; which of the late daemons can meet at the temporary file depends on how late they are.
- Three or more daemons at the temporary file: one that has it open while a second one renames it and a third one creates it anew is taken to write the new file. Only runs with late daemons contain this, and what is proved for all of those, StartLock.LockIsKept, does not depend on what is in the files.
- StartBoundary.SingleDaemonIff: dials to an open listener succeed, no daemon shuts down or crashes meanwhile, and file reads take no time.
- DaemonCore.ProtectedInterval: stops and readiness checks of the service are atomic steps, each being one critical section; a spontaneous exit of the service is not a stop by the reaper.
- EndToEnd.ClientKeepsEnvironment: beats are delivered within the given delay; a lost beat is not modelled there.
- Clock changes and scheduling delays: part of the delays and tick distances of the statements.
