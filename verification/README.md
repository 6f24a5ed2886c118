# rlock: a model of the lease protocol

rlock gives out leases on Redis keys: mutexes, kept as strings, and read-write locks, kept as sorted sets whose
scores are expiries, positive for readers and negative for writers. Lua scripts acquire, renew and release them;
clients keep a conservative local lease, renew it in the background and release it explicitly or by dropping a guard.

This project models that protocol and proves what it promises its users. Its layers are

| file | what it holds |
|---|---|
| `redis.dfy`, `scripts.dfy`, `ttl_text.dfy` | a Redis database, its commands, and the effect of the scripts on it |
| `server.dfy` | the nine scripts as loops over `KEYS` on a database that they change in place |
| `lock_table.dfy`, `refinement.dfy` | the invariant of stored locks, the table of live holders, and the refinement of an atomic lock service |
| `options.dfy`, `lock_keys.dfy`, `lock_request.dfy` | options, key lists, and the commands that a request sends |
| `lease.dfy`, `renewal.dfy`, `plays.dfy`, `guard.dfy`, `acquire.dfy`, `control.dfy` | the client's own code: lease, renewal loop, guard, release worker, acquisition loops and their caller, admission and shutdown |
| `sessions.dfy`, `manager.dfy` | state machines: one acquisition with supervisor, caller, channel and guard; one manager with queue, worker and shutdown |
| `protocol.dfy` | the whole system: one server, any number of managers and sessions, and the network between them |
| `dispatch.dfy` | what the six kinds of lock are to each other |
| `exclusion.dfy`, `handoff.dfy`, `custody.dfy`, `shutdown.dfy`, `recovery.dfy`, `progress.dfy` | what holds in every run of the whole system, and what every state still allows |
| `wakeups.dfy`, `clocks.dfy` | condition variables and the watch channel; clocks finer than a millisecond |

A run of the system is a list of labels, each enabled where it occurs: time passes, a lapsed key is deleted, a command
is executed, a session or a manager makes a move. Commands that were sent can be executed at any later time and any
number of times, and replies can be delivered late, repeatedly or never.

Assumptions: server and clients share one clock of whole milliseconds (`clocks.dfy` says what a finer client clock
changes); request UUIDs are unique; nobody else writes to the lock keys; Redis loses no data and does not fail over;
scripts are atomic. A Redis key is gone when its deadline lies in the past. Exclusion does not assume that mutexes and
read-write locks use different keys.

`Scripts.Attempt` and `Scripts.GiveUp` say what the scripts do, `Sessions.Next` and `Managers.Next` how the state
machines move, `Protocol.After` how the system moves; the members below state what that amounts to.

## Model

| member | source | states |
|---|---|---|
| `ScriptServer.Server.RwPreflight` | src/scripts.rs:7-44 | the preflights of a read-write script find the first violated condition and change nothing |
| `ScriptServer.Server.AcquireMutex` | src/scripts.rs:54-74 | the script, from its raw TTL argument, has the reply and the database of `Attempt`: every key set, or none |
| `ScriptServer.Server.RenewMutex` | src/scripts.rs:76-96 | likewise for renewal, including the error that GET raises on a sorted set |
| `ScriptServer.Server.ReleaseMutex` | src/scripts.rs:98-121 | removes the token's strings and replies 1 iff the keys are distinct and all were the token's |
| `ScriptServer.Server.AcquireRead` | src/scripts.rs:123-151 | cleanup up to the key that refuses, or cleanup and a claim on every key |
| `ScriptServer.Server.NoWriter` | src/scripts.rs:130-136 | the first pass stops exactly at the first key with a live writer |
| `ScriptServer.Server.RenewRead` | src/scripts.rs:153-183 | the same for a reader that must be live on every key |
| `ScriptServer.Server.CountWriters` | src/scripts.rs:131-133 | a turn of that pass: the key is cleaned, and writers are counted exactly where the pass stops |
| `ScriptServer.Server.AddReader` | src/scripts.rs:140-146 | the second pass: the score on every key, and a deadline that is only ever extended |
| `ScriptServer.Server.ReleaseRead` | src/scripts.rs:185-207 | removes the reader and counts as for mutexes |
| `ScriptServer.Server.AcquireWrite` | src/scripts.rs:209-234 | refuses at the first key with a live holder, else claims every key |
| `ScriptServer.Server.AddWriter` | src/scripts.rs:226-229 | the second pass of the writer scripts with its unconditional PEXPIRE |
| `ScriptServer.Server.RenewWrite` | src/scripts.rs:236-263 | the same for a writer that must be live on every key |
| `ScriptServer.Server.ReleaseMember` | src/scripts.rs:265-287 | the read-write release loop with its count |
| `Scripts.PlannedTwice` | src/scripts.rs:130-146 | a repeated key is no different from a single one: cleaning, claiming and releasing are idempotent |
| `Scripts.SweepThenClaim` | src/scripts.rs:130-146 | the two passes over all keys are one claim per key |
| `Scripts.RefusalAt` | src/scripts.rs:61-65 | the first pass admits exactly the keys before the one that stops it |
| `TtlText.DecimalReadsBack` | src/async_lock/operations.rs:26-33 | the decimal text of a number is canonical and reads back as that number |
| `TtlText.NumberPrintsBack` | src/scripts.rs:10-14 | every text that matches the Lua pattern is the decimal text of its value |
| `TtlText.TtlRoundTrip` | src/async_lock/operations.rs:26-33 | the TTL sent is the TTL that the script computes with |
| `TtlText.PreflightExact` | src/scripts.rs:10-18 | the preflight accepts exactly the canonical decimals of 1 to 2^53 - 1; larger ones are out of range, anything else is no TTL |
| `LockTable.AttemptSound` | src/scripts.rs:123-263 | readers only or one single writer, expired members included, and a key deadline no earlier than any member's: kept by every acquire and renew, on any keys |
| `LockTable.GiveUpSound` | src/scripts.rs:98-121 | the same for the releases |
| `LockTable.ClaimedOk` | src/scripts.rs:226-231 | a claim that the first pass admits cannot mix readers and writers, and the writers' PEXPIRE shortens nobody |
| `LockTable.AttemptKeeps` | src/scripts.rs:172-180 | no acquire or renew ends or shortens a lease that is not over, another's or its own |
| `LockTable.AttemptGrants` | src/scripts.rs:140-148 | reply 1 gives the owner the full TTL on every key |
| `LockTable.GiveUpKeeps` | src/scripts.rs:185-207 | a release leaves every other owner as stored, in any database |
| `LockTable.SharedOnlyByReaders` | src/scripts.rs:34-35 | two owners of one key are two readers |
| `LockTable.AdmitsIsFree` | src/scripts.rs:133-135 | the test on signs and scores is the test on live holders |
| `LockTable.SucceedsIffFree` | src/scripts.rs:123-263 | reply 1 iff no key has a live writer (read), no key has a live holder (write, mutex), every key has the owner live (renew) |
| `LockTable.GrantedIff` | src/scripts.rs:130-136 | the same in plain words: no live writer for a reader, no live holder for a writer or mutex, itself live for a renewal |
| `LockTable.ErrorsExactly` | src/scripts.rs:27-43 | which error is raised, and when: expiry out of range before a wrong type, and for mutexes only a renewal that meets a sorted set |
| `LockTable.LooksClean` | src/scripts.rs:131-135 | a read-write script leaves no expired member on any key that it has looked at, and does not touch the others |
| `LockTable.AttemptRefines` | src/scripts.rs:54-263 | each acquire and renew script is one atomic operation on the table of live holders, with expiry now + ttl |
| `LockTable.GiveUpRefines` | src/scripts.rs:98-287 | each release script is the atomic removal of its owner from the table |
| `LockTable.RefusalChangesNothing` | src/scripts.rs:36-44 | contention or an error changes no live holder; an error changes nothing that is stored |
| `LockTable.CleanupStutters` | src/scripts.rs:131-131 | ZREMRANGEBYSCORE is invisible in the table |
| `LockTable.TimeExpires` | src/scripts.rs:143-145 | lazy cleanup and whole-key expiry are eager expiry of holders: no key lapses under a live holder |
| `LockTable.EvictStutters` | src/scripts.rs:62-62 | deleting a lapsed key is invisible in the table |
| `LockTable.ReleaseIsExact` | src/scripts.rs:185-207 | release removes the token's own entries and nothing else: other owners, their scores and all deadlines stay |
| `LockTable.ReleaseReply` | src/scripts.rs:191-204 | on distinct keys the reply is 1 whenever the token was a live holder of all of them, for mutexes only then; it differs from the table's answer exactly if every key still stores the token and one of them as an expired member |
| `LockTable.ExpiredReaderIsReleased` | src/scripts.rs:194-198 | and that happens |
| `LockTable.ReleaseAnswersAcquire` | src/scripts.rs:114-118 | released within the TTL of its acquisition, a lock on distinct keys is answered 1, one on repeated keys 0 |
| `LockTable.AcquireThenRelease` | src/scripts.rs:54-121 | acquiring and later releasing leaves the table of live holders as time alone would have left it |
| `LockTable.ReleaseTwice` | src/scripts.rs:98-121 | a second release replies 0 and changes nothing |
| `LockTable.FreeAfterExpiry` | src/scripts.rs:59-73 | past every deadline on its keys an acquisition succeeds, whatever is stored |
| `LockTable.FastPath` | src/async_lock/operations.rs:12-24 | SET NX PX is the acquire script on one key: same reply, same database |
| `LockTable.ScoresAreExact` | src/scripts.rs:27-31 | past the expiry preflight the stored score is within 2^53 - 1 in either sign |
| `Refinement.CommandRefines` | src/scripts.rs:54-287 | every command, meaningful or not, is a step of the lock service on the table, and its reply is an answer of the service |
| `Refinement.RunsRefineTheService` | src/scripts.rs:54-287 | every run of the system, seen through the table and the replies, is a run of the lock service from the empty table |
| `LockKeys.Validate` | src/lock_keys.rs:33-46 | accepts exactly the nonempty lists of distinct keys, else names the first repetition |
| `LockRequest.AcquireLock` | src/async_lock/operations.rs:7-34 | the command has the effect `Perform`, by the fast path or by the target's script; a granted one is stored on every key that the target names, as a string, a positive or a negative expiry, each now + ttl |
| `LockRequest.RenewLock` | src/async_lock/operations.rs:36-49 | the same for renewal |
| `LockRequest.ReleaseLock` | src/sync_lock/operations.rs:53-62 | the same for release: nothing of the lock is left on any key that the target names |
| `Dispatch.NamedAreKeys` | src/lock_request.rs:17-25 | a command carries exactly the keys that its target names |
| `Dispatch.Excludes` | src/lock_request.rs:28-54 | once a lock is granted, no other token's request that names one of its keys is granted before the expiry, unless both targets are readers |
| `Dispatch.ReadersShare` | src/lock_request.rs:28-54 | a reader on keys that another reader holds is granted |
| `Protocol.PerformIsScript` | src/lock_request.rs:28-54 | whichever way it is sent, a command does what its script does |
| `Options.AcceptedExactly` | src/options.rs:250-285 | which options are accepted, in the caller's own numbers |
| `Options.RejectedExactly` | src/options.rs:250-275 | and for which reason the others are rejected |
| `Options.RenewalIsDue` | src/options.rs:171-173 | automatic renewal is due after exactly half of the effective TTL |
| `Options.AcceptedTtlIsExact` | src/options.rs:165-173 | the lease, the wire text and the script use the same TTL, and the renewal interval is positive and below it |
| `Leases.Lease.Refresh` | src/lease.rs:49-54 | an active lease at its deadline becomes lost, and that is announced |
| `Leases.Lease.State` | src/lease.rs:56-60 | answers after refreshing |
| `Leases.Lease.Remaining` | src/lease.rs:62-70 | the time left on the second clock reading |
| `Leases.Lease.RenewWith` | src/lease.rs:72-87 | renews exactly when the old and the new lease are active, else the lease is lost |
| `Leases.Lease.Forfeit` | src/lease.rs:89-95 | an active lease becomes lost |
| `Leases.Lease.Finish` | src/lease.rs:97-100 | the lease becomes released |
| `Leases.Lease.WaitUntilInactive` | src/lease.rs:103-115 | returns at the first look that finds the lease inactive, and sets a timer after every other |
| `Leases.TimersRingInTime` | src/lease.rs:105-114 | no timer lasts past the deadline, and at the end of the last one the lease has ended unless it was renewed |
| `Leases.LeftIsUntilExpiry` | src/lease.rs:62-70 | the remaining time is the time until the lease stops being active |
| `Leases.RenewedUntil` | src/lease.rs:72-87 | after a renewal the lease is active at exactly the instants less than a TTL after the command was sent, if it still was when the reply was looked at, however late that is |
| `Leases.DeadlineBetweenReadings` | src/lease.rs:74-86 | a deadline that passes between the two readings, unseen, does not stop a renewal |
| `Leases.InactiveForever` | src/lease.rs:72-100 | an inactive lease stays inactive under every method |
| `Renewal.RunRenewal` | src/async_lock/guard.rs:61-99 | every attempt goes out in a round that finds the lease active and was not told to stop, and when it is due follows from the answer before; a refused renewal loses the lease at once and no attempt follows; the session's guard shows the lease |
| `Renewal.TakeTurn` | src/sync_lock/guard.rs:70-101 | one turn: whether an attempt goes out, what its answer does to the lease, whether another turn follows |
| `Renewal.RenewalKeepsAlive` | src/sync_lock/guard.rs:68-89 | any number of timely renewals that the server grants keeps the lease active at every instant; that the server refuses none of them is `Exclusion.RenewalIsGranted` |
| `Renewal.RetryBeforeDeadline` | src/async_lock/guard.rs:92-97 | after an error with time left the next attempt waits for the retry interval or half of that time, whichever is less, so it is due strictly before the deadline |
| `Renewal.RetriesHalve` | src/sync_lock/guard.rs:95-100 | k instant failures leave at least 1/2^k of the time, an active lease and a further attempt |
| `Guards.ReleaseQueue.TrySend` | src/async_lock/guard.rs:152-163 | sent, full or closed |
| `Guards.GuardData.Release` | src/async_lock/guard.rs:120-142 | the lease is lost first; only an answered release marks the guard released; failed releases can be repeated; the fields show the session after its release moves, the user's or the supervisor's |
| `Guards.GuardData.Drop` | src/async_lock/guard.rs:145-165 | an unreleased guard ends its lease and queues one release if it holds its sender and there is room; the fields show the session after its drop moves |
| `Guards.DrainQueue` | src/async_lock/manager.rs:83-97 | the worker's loop: a barrier is acknowledged when all releases before it are done; others keep their keys |
| `Acquire.Supervise` | src/async_lock/guard.rs:252-357 | the loop decides in the first turn that does not go on, with the outcome that this turn justifies and no attempt too many; it is a play of its session in which everything Redis granted is released, or offered as an active guard, and a command that failed is followed by a release |
| `Acquire.AcquireLoop` | src/sync_lock/guard.rs:221-292 | the same for the sync loop, which queues a release after an I/O error and after no other |
| `Acquire.Decide` | src/async_lock/guard.rs:289-318 | after a grant: a guard exactly if it comes in time, before shutdown and with an active lease, else the grant is released |
| `Acquire.OneDecision` | src/sync_lock/guard.rs:231-291 | what happens in the turns determines the outcome and the turn that decides |
| `Acquire.WhatComesFirst` | src/async_lock/guard.rs:266-356 | which of the circumstances of a turn decides, for either loop |
| `Acquire.Receive` | src/async_lock/guard.rs:229-249 | a delivered guard reaches the user exactly if it is still wanted and its lease was found active, else it is on its way to be dropped and the caller is told of the timeout, of shutdown or of the lost lease, in this order |
| `Acquire.HandOver` | src/async_lock/guard.rs:308-317 | the guard goes into the channel, or stays with the async supervisor, or is dropped by the sync thread |
| `Acquire.AwaitAcceptance` | src/async_lock/guard.rs:320-324 | the supervisor releases the lock itself exactly if the guard was not accepted |
| `Control.AsyncControl.Admit` | src/async_lock/manager.rs:124-130 | the code admits exactly when the state machine does |
| `Control.AsyncControl.BeginShutdown` | src/async_lock/manager.rs:163-193 | the first caller seals admission and coordinates, later ones change nothing, as in the state machine |
| `Control.AsyncControl.Conclude` | src/async_lock/manager.rs:177-191 | the coordinator's verdict is final unless a failure was noticed first |
| `Control.AsyncControl.WorkerDied` | src/async_lock/manager.rs:102-113 | a worker's panic fails every shutdown that is not complete |
| `Control.AsyncControl.Look` | src/async_lock/manager.rs:195-207 | a caller returns iff shutdown has completed, panics iff it has failed, and waits otherwise |
| `Control.SyncControl.BeginShutdown` | src/sync_lock/manager.rs:153-163 | the sync fields make the same move |
| `Control.SyncControl.Conclude` | src/sync_lock/manager.rs:164-170 | likewise for the result of the barrier |
| `Control.SyncControl.Look` | src/sync_lock/manager.rs:171-179 | likewise for the result that the sync callers wait for |
| `Sessions.NextInv` | src/async_lock/guard.rs:204-357 | the invariant of one acquisition and its guard, over every interleaving of its parts |
| `Sessions.ReleasesWhenRetired` | src/async_lock/guard.rs:120-165 | no release is sent or queued while the session's lease can be active |
| `Sessions.RetiredForever` | src/lease.rs:72-100 | a session without an active lease never gets one again |
| `Sessions.CountsOnReplies` | src/async_lock/guard.rs:80-91 | an active lease counts from a command whose success was heard of |
| `Sessions.SenderShrinks` | src/async_lock/guard.rs:138-152 | a session that has let go of the release queue never sends again |
| `Sessions.NextContract` | src/sync_lock/guard.rs:110-135 | all of this for any move of any backend |
| `Managers.NextInv` | src/async_lock/manager.rs:83-208 | queue order, the single barrier, its acknowledgement and the phases, over every interleaving |
| `Managers.Absorbing` | src/async_lock/manager.rs:103-111 | completion and failure are final, admission never reopens |
| `Managers.WhoReturns` | src/async_lock/manager.rs:195-207 | a blocked caller returns from a completed shutdown and crashes on a failed one |
| `Managers.HowItEnds` | src/async_lock/manager.rs:177-191 | a heard acknowledgement completes the shutdown unless a panic was noticed first; a lost barrier and a noticed panic fail it |
| `Managers.NextContract` | src/sync_lock/manager.rs:103-112 | the worker attempts only what was queued and exits only when no sender is left |
| `Protocol.RunKeepsInv` | src/async_lock/guard.rs:42-165 | the invariant of the whole system, over every run |
| `Protocol.ExecuteCovers` | src/scripts.rs:54-287 | a confirmed command keeps its keys for its TTL whatever else is executed, until its release is sent |
| `Exclusion.ConservativeLease` | src/lease.rs:8-9 | an active guard is a live holder of all its keys past its local deadline, and no release of it has been sent or queued |
| `Exclusion.RenewalIsGranted` | src/scripts.rs:153-183 | the server grants a renewal that it executes while the guard is active, iff the new expiry stays in range |
| `Exclusion.EndToEndExclusion` | src/async_lock/guard.rs:42-165 | two guards whose targets name the same key and that are active at one instant both have reader targets |
| `Exclusion.LostStaysLost` | src/lease.rs:72-100 | a lease seen lost or released is never active again, whatever replies still come |
| `Exclusion.RefusalIsFinal` | src/async_lock/guard.rs:87-91 | a refused renewal ends the lease at once and for good |
| `Handoff.AsyncHandoff` | src/async_lock/guard.rs:289-335 | exactly one: the caller accepted the guard and no cleanup was sent, or the caller has none and a release was sent after the acquisition |
| `Handoff.HandoffIsFinal` | src/async_lock/guard.rs:319-335 | and no later step changes that |
| `Handoff.NoGrantIsForgotten` | src/sync_lock/guard.rs:255-273 | in either backend a grant that became no guard is cleaned up before the supervisor ends |
| `Custody.GrantsAreSettled` | src/async_lock/guard.rs:281-334 | whatever follows an async grant that is heard of, when the supervisor has ended the caller has claimed the guard or a release was sent since |
| `Custody.ErrorsAreCleanedUp` | src/async_lock/guard.rs:283-287 | whatever follows an error of unknown outcome, when the acquisition has ended a release was sent since, or was offered to the queue by the sync loop |
| `Custody.UnknownOutcomeIsCleanedUp` | src/sync_lock/guard.rs:244-253 | the same as an invariant of every run |
| `Custody.SyncHandoff` | src/sync_lock/guard.rs:163-168 | the sync worker's account of a guard that it has sent is the async supervisor's |
| `Custody.GrantsHaveKeepers` | src/sync_lock/guard.rs:255-276 | in any backend somebody is responsible for a confirmed grant once its supervisor has ended |
| `Custody.GuardsAreReturned` | src/async_lock/guard.rs:145-165 | a guard that is gone was released by an executed script, or its release was offered to the queue, where it is if it was taken |
| `Custody.ReleasedMeansExecuted` | src/async_lock/guard.rs:133-141 | a guard that calls itself released was released by an executed script |
| `Custody.CallersAreTold` | src/async_lock/guard.rs:267-276 | when the acquisition has ended there is a result for a caller that still waits |
| `Custody.WhatMovesSend` | src/async_lock/guard.rs:129-131 | which commands leave with which moves |
| `Custody.WhatMovesQueue` | src/async_lock/guard.rs:152-154 | the queue of 1024 takes a release exactly if its worker lives and there is room |
| `Custody.WhatMovesHear` | src/async_lock/guard.rs:281-288 | a session hears replies to the very commands that it sent |
| `Shutdown.ShutdownBarrier` | src/async_lock/manager.rs:162-208 | shutdown completes, and its callers return, only after the worker has taken out and attempted, in order, every release queued before the one barrier and has acknowledged the barrier |
| `Shutdown.OnlyPanicsFail` | src/async_lock/manager.rs:102-113 | shutdown fails only by a panic of the worker, callers crash only then, and an acknowledged barrier means completion |
| `Shutdown.CompletedLetsGo` | src/async_lock/manager.rs:198-198 | every caller of a completed shutdown can return |
| `Shutdown.ShutdownCanComplete` | src/sync_lock/manager.rs:164-179 | from any state with a live worker the queue can be emptied and a waiting caller returns |
| `Shutdown.WorkerCanExit` | src/async_lock/manager.rs:86-99 | when nobody needs the queue any more the worker can exit |
| `Shutdown.OutcomeIsFinal` | src/sync_lock/manager.rs:153-180 | completed and failed are final in every continuation |
| `Shutdown.SealedHandoff` | src/async_lock/guard.rs:291-294 | after admission is sealed no async acquisition of the manager gets a guard |
| `Shutdown.WorkerOutlivesSenders` | src/async_lock/manager.rs:86-97 | barring a panic the worker runs while an acquisition or an unreleased guard exists, also after shutdown |
| `Shutdown.OnlyAFullQueueRefuses` | src/async_lock/guard.rs:152-163 | a dropped guard's release is refused only by a full queue or a panicked worker |
| `Recovery.BlockedOnlyWithinTtl` | src/scripts.rs:128-150 | an acquisition is refused only because of an owner that acquired or renewed within the last TTL |
| `Recovery.EveryKeyExpires` | src/scripts.rs:67-69 | every stored lock key has a finite deadline |
| `Recovery.NoResurrection` | src/scripts.rs:83-93 | delayed or repeated renewals and releases never bring an owner back |
| `Recovery.ReleasedForGood` | src/scripts.rs:160-180 | from the execution of its release on, a token whose acquires are over holds nothing |
| `WakeUps.NoLostWakeUp` | src/sync_lock/manager.rs:190-206 | after a flag is raised and announced no waiter that it concerns is asleep, for the retry wait, cancellation and the shutdown result |
| `WakeUps.NotifiersWakeUp` | src/sync_lock/manager.rs:202-206 | a raised flag can be announced as soon as the lock is free, and that wakes everybody |
| `WakeUps.WokenWaitersGetBack` | src/sync_lock/manager.rs:195-197 | a woken waiter whose flag is up gets back |
| `WakeUps.WithoutLockWakeUpsGetLost` | src/sync_lock/manager.rs:160-163 | why the notifier takes the lock: without it a waiter can sleep on |
| `WakeUps.NoWatcherIsStuck` | src/lease.rs:103-115 | once a lease has ended and that was announced no watcher waits for its timer alone |
| `WakeUps.WatchersAreTold` | src/lease.rs:106-113 | a watcher that looks at an ended lease is told, and one that has missed a version looks again |
| `Clocks.SlackBelowOneMillisecond` | src/scripts.rs:25-25 | with a finer client clock a read-write lease outlives the server's by less than a millisecond |
| `Clocks.NoSlackIff` | src/scripts.rs:25-25 | exactly when it does not |
| `Clocks.LateClocksDoNoHarm` | src/scripts.rs:140-146 | PTTL and PEXPIRE that read a later clock than TIME keep the shape of the key, the owner's TTL and everybody else's lease |
| `Progress.FreeLocksCanBeAcquired` | src/async_lock/guard.rs:204-249 | from any state, a request that the server would grant can get its user an active guard, in every backend |
| `Progress.ActiveGuardsCanBeRenewed` | src/async_lock/guard.rs:80-86 | an active guard can be renewed, and its lease then counts from the new command |
| `Progress.GuardsCanBeReleased` | src/async_lock/guard.rs:120-142 | a user's guard can be released and is then gone, with its entries |

## Left out

- The Redis wire protocol, the client library, script loading, reconnection and TLS: an error means that the outcome is unknown.
- The connection pool, the public guard types and the `acquire_*` wrappers, error formatting and tracing: thin or independent of the protocol.
- Redis failover, clock jumps, process pauses against external resources, fencing: the project's own documentation disclaims them; they are assumptions here.
- Writer fairness: readers are preferred by design and a writer may starve.
- Panics and killed tasks other than the release worker: a supervisor or a caller that vanishes without unwinding is left to TTL expiry.
- Clocks inside a script: in a run a script reads one clock value for TIME, PTTL and PEXPIRE; what Redis versions that advance the clock within a script do to one key is `Clocks.LateClocksDoNoHarm`.
- Sorted-set members as text: `Owner(Read, t)` and `Owner(Write, t)` stand for "r:" and "w:" followed by the UUID.
- Lua numbers: scores are integers; `LockTable.ScoresAreExact` says why they fit.
- LockTable.AttemptRefines: asks for keys of the right kind and an expiry in range; `Refinement.CommandRefines` covers every other command, which changes no live holder.
- Refinement.CommandRefines: leaves open whether the release of an expired read-write lease is answered 1; `LockTable.ReleaseReply` says exactly when it is.
- Exclusion.LostStaysLost: speaks of a lease that was seen inactive, because a deadline that passes unseen between the two clock readings of one `renew` call does not stop that renewal (`Leases.DeadlineBetweenReadings`).
- Handoff.NoGrantIsForgotten: does not speak of a sync guard whose renewal thread could not be spawned; that guard's own drop queues the release.
- Shutdown.SealedHandoff: async only; sync acquisition makes its guard without the admission lock.
- Acquire.Supervise: ends where the guard is handed over; the caller's side is `Acquire.Receive`, and their interleaving is the state machine in `sessions.dfy`.
- Guards.GuardData.Drop: is the async drop; the sync one also marks an already released lease as released again, which changes nothing.
