# Verified models of lighter's cores

A Dafny model of the parts of lighter whose correctness spans many operations, and proofs of what
they promise. `dafny verify dfyconfig.toml` checks all of it.

- **The apply queue** (`Jobs`, `Queue*`, `Apply*`). Filesystem mutations are acknowledged first and
  applied later by a pool of workers, in push order per inode and side by side otherwise. `Queue` is
  the state behind the mutex and its three critical sections as functions; `QueueGraph`,
  `QueueLanes` and `QueueInvariant` are the invariant they keep; `ApplyQueue` is the same state
  changed in place, proved against `Queue`. `ApplySystem` adds the threads: workers, callers of
  `push`, `drain_to` and `wait_while`, owed notifications, and the host as a map from inodes on
  which jobs act in framed effects. `ApplyWork`, `ApplyStore` and `ApplyWake` are invariants of
  every step; `ApplyRuns`, `ApplyOrder`, `ApplyLimits`, `ApplyLiveness` and `ApplyFair` say what
  follows for whole runs: the host is serial, no wake-up is lost, nothing panics, jobs are taken in
  order and within limits, and fair runs catch up; `ApplyStarve` says exactly under which storms
  they do.
- **Activation and home ownership** (`Activation`, `Prune`, `Instance`). Installers, recoveries,
  rollbacks, prunes, machine starts and lock probes as steps on the disk and the locks, with a stop
  possible between any two and locks let go some time after.
- **The port reconciler** (`Ports`, `Reconcile`). A pass against a mapper that may refuse any call,
  and the threads that run passes under one mutex.
- **Smaller cores**: chunked bodies and newline framing (`Chunks`, after section 7.1 of RFC 9112),
  the swept hot set (`HotSet`), share lists (`Shares`), and route overlap (`Routes`).

`Basics`, `Sorting`, `Text` and `Utf8` hold what they use.

Choices of the model:

- Environment overrides (widths, window, caps, lane switches) are the fields of `Settings`, fixed
  for a run and otherwise arbitrary; the bounded lane's width is at least 1 where progress needs it,
  and there is at least one worker. Clocks, the mapper's answers, the scheduler, Docker and every
  error or crash are arbitrary.
- A job's closure is any number of atomic effects, each reading and writing only the inodes the job
  names. A closure that panics is one whose remaining effects do nothing.
- Atomics are sequentially consistent, and the state mutex makes its sections atomic. A caller that
  has looked and not yet slept still holds the mutex, while payload and flags change without it.
- A mapper call that fails leaves what is open as it was.
- A fair run is one in which every thread, and every notification on its way, that is able to move
  again and again moves again and again.

Where the code does less than its comments may suggest, the model follows the code:

- A barrier can starve. A `drain_to` returns under every storm of some kinds of jobs if and only if
  those kinds are all of the wide lane (`ApplyStarve.DrainOutlastsIffWide`): the serial and the
  bounded lane are looked at first, so renames, attribute changes and links, and creates, writes,
  directories and symbolic links, can each keep a clone waiting for ever, however many workers
  there are.
- A lane takes its jobs in the order they became ready, which is push order only between jobs that
  became ready at once (`ApplyOrder.FirstReadyFirstTaken`).
- A failed withdrawal can leave a stale failure on record (`Ports.StaleFailure`, and exactly when in
  `Ports.FailedIsClosedIffNoneStale`).
- The hot set forgets a touch early if the two profiles' cooldowns differ
  (`HotSet.AgreesIffEqualCooldowns`; the shipped ones are equal).
- A chunked body cut short is taken for a whole one exactly when the cut leaves nothing, or only
  zeros, of a chunk's size (`Chunks.Cut`).
- The root, once shared, cannot be unshared (`Shares.AllButTheRoot`), and a relative name of one byte
  listed before it stays listed, so that normalising is not idempotent there (`Shares.IdempotentIff`).
- A route that is passed over as multicast, broadcast or loopback is not looked at even when its
  prefix is so short that it overlaps every candidate (`Routes.PassedOverIff`).
- A stray file at the shared payload's place, or a second payload beside an earlier backup, keeps an
  interrupted activation from ever being recovered by the program (`Activation.RecoverableIffClear`).

## Model

| member | source | states |
|---|---|---|
| `Jobs.KeysOf` | crates/lighter-fs/src/apply.rs:76-89 | fills the four-slot array with the distinct nonzero inodes in order of first mention, and panics exactly when there are none or more than four |
| `Jobs.PerformCommutes` | crates/lighter-fs/src/apply.rs:535-573 | effects framed to disjoint sets of inodes commute |
| `Jobs.PerformIs` | crates/lighter-fs/src/apply.rs:535-573 | an effect makes of its inodes what it makes of them alone, and leaves every other as it was |
| `QueueGraph.Isolation` | crates/lighter-fs/src/apply.rs:535-573 | two held jobs that wait for nothing share no inode |
| `QueueGraph.OldestWaitsForNothing` | crates/lighter-fs/src/apply.rs:756-782 | the oldest unfinished job waits for nothing |
| `QueueGraph.PushKeepsGraph` | crates/lighter-fs/src/apply.rs:535-566 | after a push every slot still waits for exactly its distinct nearest unfinished predecessors, has exactly its successors, and every tail is the newest unfinished job on its inode |
| `QueueGraph.TakeKeepsGraph` | crates/lighter-fs/src/apply.rs:716-721 | a pick keeps the same |
| `QueueGraph.FinishKeepsGraph` | crates/lighter-fs/src/apply.rs:749-790 | a completion keeps the same, with the finished job gone from all of it |
| `QueueLanes.ListedExactlyWhenPickable` | crates/lighter-fs/src/apply.rs:291-302 | a lane key is listed exactly while it has a ready job and none running, and its queue holds one job |
| `QueueLanes.ListKeepsLanes` | crates/lighter-fs/src/apply.rs:312-318 | listing a newly ready job keeps every lane's list exact |
| `QueueLanes.ChosenIsReady` | crates/lighter-fs/src/apply.rs:707-715 | what a worker picks is a ready job, of the lane it was picked from |
| `QueueLanes.ChooseKeepsLanes` | crates/lighter-fs/src/apply.rs:707-724 | picking keeps the lists, the serial flag, the running keys and the count exact and within the width |
| `QueueLanes.FinishedRelistsNothing` | crates/lighter-fs/src/apply.rs:332-338 | a bounded job that finishes never finds a job of its key to relist, with directory affinity on or off |
| `QueueLanes.LeaveKeepsLanes` | crates/lighter-fs/src/apply.rs:750-754 | leaving a lane keeps the same |
| `QueueInvariant.PushKeeps` | crates/lighter-fs/src/apply.rs:531-575 | the whole invariant (graph, lanes, counters, watermark) survives a push |
| `QueueInvariant.PickDefined` | crates/lighter-fs/src/apply.rs:716-721 | a pick from nonempty lists never meets one of the `expect`s: the listed key has a job, and the job is held and untaken |
| `QueueInvariant.PickKeeps` | crates/lighter-fs/src/apply.rs:697-728 | the whole invariant survives a pick |
| `QueueInvariant.FinishDefined` | crates/lighter-fs/src/apply.rs:749-762 | a completion never meets an `expect` or an underflow: its job is held, its successors are held and wait, its lane counts it |
| `QueueInvariant.FinishKeeps` | crates/lighter-fs/src/apply.rs:748-802 | the whole invariant survives a completion |
| `QueueInvariant.Progress` | crates/lighter-fs/src/apply.rs:697-728 | if work is outstanding and none of it runs, a worker that looks finds a job |
| `QueueInvariant.WatermarkRises` | crates/lighter-fs/src/apply.rs:790-795 | a completion never lowers the watermark |
| `ApplyQueue.Bounded.Offer` | crates/lighter-fs/src/apply.rs:312-318 | in place: queues the job under its key, and lists the key if it is the only one and none runs |
| `ApplyQueue.Bounded.Pick` | crates/lighter-fs/src/apply.rs:320-330 | in place: takes the first listed key's oldest job, drops an emptied queue, and counts the key as running |
| `ApplyQueue.Bounded.Finished` | crates/lighter-fs/src/apply.rs:332-338 | in place: uncounts the key and relists it if it has a queue |
| `ApplyQueue.Apply.Hold` | crates/lighter-fs/src/apply.rs:488-490 | in place: sets the held flag and keeps the invariant |
| `ApplyQueue.Apply.Release` | crates/lighter-fs/src/apply.rs:493-496 | in place: clears it; the wake-up that follows is a step of `ApplySystem` |
| `ApplyQueue.Apply.Precede` | crates/lighter-fs/src/apply.rs:538-551 | the loop over the keys with its `seen` array tells each distinct newest job on them, once, of the new job, and counts them |
| `ApplyQueue.Apply.Push` | crates/lighter-fs/src/apply.rs:508-577 | past its wait, in place: takes the state exactly where the specification of a push says and keeps the invariant |
| `ApplyQueue.Apply.ChooseJob` | crates/lighter-fs/src/apply.rs:707-715 | takes off the lists exactly what the specified choice takes: the serial lane's oldest, else a bounded key under the width, else the oldest wide job |
| `ApplyQueue.Apply.PickJob` | crates/lighter-fs/src/apply.rs:697-728 | in place: picks exactly when not held and something is pickable, and hands out the job that was pushed under that number |
| `ApplyQueue.Apply.ReleaseAll` | crates/lighter-fs/src/apply.rs:756-782 | the loop over successors lowers each one's count once, lists those that wait for nothing in order, and counts those outside the serial lane |
| `ApplyQueue.Apply.Untail` | crates/lighter-fs/src/apply.rs:785-789 | the loop over keys removes exactly the tails that still name the finished job |
| `ApplyQueue.Apply.RaiseWatermark` | crates/lighter-fs/src/apply.rs:791-795 | stores everything pushed if nothing is unfinished, else the number below the oldest unfinished job |
| `ApplyQueue.Apply.Complete` | crates/lighter-fs/src/apply.rs:748-813 | in place: the completion section takes the state where its specification says, removes exactly its own number, keeps the invariant, never lowers the watermark, and counts the jobs outside the serial lane it made ready, which decides whom it wakes |
| `ApplyWork.StepKeepsWork` | crates/lighter-fs/src/apply.rs:693-817 | over every step of every thread: the jobs out of their slots are exactly those the workers hold, one each; the payload counter is the payload not given back; no finished job was pushed after an unfinished one it conflicts with |
| `ApplyWork.RepayNeverWraps` | crates/lighter-fs/src/apply.rs:732-742 | giving payload back never takes the counter below zero |
| `ApplyStore.StepKeepsStore` | crates/lighter-fs/src/apply.rs:693-817 | over every step the host is what every job, in push order and each as far as it has come, makes it |
| `ApplyStore.EmptyMeansSerial` | crates/lighter-fs/src/apply.rs:508-577 | with nothing unfinished the host is what running every job alone in push order makes it |
| `ApplyStore.InodeIsFinished` | crates/lighter-fs/src/apply.rs:693-817 | an inode no running job names is what the finished jobs alone, in push order, make it |
| `ApplyWake.StepKeepsWake` | crates/lighter-fs/src/apply.rs:600-629 | over every step: a pickable job has a worker awake or a notification owed; a caller asleep on a condition that has come true has a worker still to announce it |
| `ApplyWake.RepayCallers` | crates/lighter-fs/src/apply.rs:742-748 | although payload drops outside the lock, a pusher it lets through is owed the announcement of the completion that follows |
| `ApplyWake.CompleteCallers` | crates/lighter-fs/src/apply.rs:796-815 | a completion under the lock leaves nobody between looking and sleeping, and whoever sleeps is owed its announcement |
| `ApplyRuns.RunKeeps` | crates/lighter-fs/src/apply.rs:508-817 | every state of every run keeps the queue, staffing, payload, store and wake-up invariants |
| `ApplyRuns.Serializable` | crates/lighter-fs/src/apply.rs:508-577 | in every run, whenever the queue is empty the host equals all pushed jobs applied one at a time in push order |
| `ApplyRuns.EveryInodeSerial` | crates/lighter-fs/src/apply.rs:508-577 | in every state of every run, an inode no running job names equals the finished jobs applied in push order |
| `ApplyRuns.NeverTogether` | crates/lighter-fs/src/apply.rs:535-573 | in no state of any run do two jobs that are ready or running share an inode |
| `ApplyRuns.TailIsNewest` | crates/lighter-fs/src/apply.rs:540-554 | in every state an inode has a tail exactly while an unfinished job names it, and the tail is the newest such job |
| `ApplyRuns.WaitsForItsPredecessors` | crates/lighter-fs/src/apply.rs:756-764 | in every state `waiting` is the number of distinct unfinished immediate predecessors, and successors are their converse |
| `ApplyRuns.BoundedLaneExact` | crates/lighter-fs/src/apply.rs:291-339 | in every state a key is listed once exactly while it has a ready job and none running; the count is the size of `running` and within the width; every queue holds one job |
| `ApplyRuns.LaneKeyIs` | crates/lighter-fs/src/apply.rs:307-310 | in every state a held job's lane key is its first inode with affinity on, and a number of its own otherwise |
| `ApplyRuns.WatermarkIsExact` | crates/lighter-fs/src/apply.rs:412-418 | in every state `applied` is `pushed` if nothing is unfinished, else one below the oldest unfinished number |
| `ApplyRuns.OldestNeverWaits` | crates/lighter-fs/src/apply.rs:756-782 | in every state with work, the job after the watermark is ready or running |
| `ApplyRuns.NeverPanics` | crates/lighter-fs/src/apply.rs:716-762 | no worker of any run meets a failed `expect`, an underflowing counter or a missing slot |
| `ApplyRuns.WatermarkNeverFalls` | crates/lighter-fs/src/apply.rs:790-796 | over any stretch of any run the watermark does not fall and the log only grows |
| `ApplyRuns.DrainedStays` | crates/lighter-fs/src/apply.rs:600-609 | once a `drain_to` has returned, no job up to its number is ever unfinished again |
| `ApplyRuns.DrainedHolds` | crates/lighter-fs/src/apply.rs:591-609 | and an inode no later job names holds what the jobs up to that number, in push order, make it, though they finished out of order |
| `ApplyRuns.BlockedHasWork` | crates/lighter-fs/src/apply.rs:515-520 | whoever waits, a push over the cap or the window, a barrier above the watermark, a wait on a raised flag, has unfinished work ahead |
| `ApplyOrder.FirstReadyFirstTaken` | crates/lighter-fs/src/apply.rs:376-383 | in every run and each of the three lanes: no job is taken while another of its lane that was ready before it has not been |
| `ApplyOrder.TogetherInPushOrder` | crates/lighter-fs/src/apply.rs:756-782 | of two jobs of a lane that one completion made ready, the one pushed first is the first taken |
| `ApplyOrder.LaneByLane` | crates/lighter-fs/src/apply.rs:705-715 | a job outside the serial lane is taken only while no serial job is ready or one runs, and one of the wide lane only while besides no bounded job is ready or the width is taken |
| `ApplyOrder.OneChangeAtATime` | crates/lighter-fs/src/apply.rs:149-165 | of renames, attribute changes and links, and of creates too with the switch off, never do two run at once |
| `ApplyOrder.CreatesWithinWidth` | crates/lighter-fs/src/apply.rs:149-165 | of creates, writes, directories and symbolic links never do more run than the width |
| `ApplyOrder.RemovesNeverWait` | crates/lighter-fs/src/apply.rs:149-165 | a clone, unlink or removed directory that waits for nothing can be picked whatever runs |
| `ApplyLimits.PushesWithRoom` | crates/lighter-fs/src/apply.rs:504-520 | in every run a push goes in only while the payload is within the cap and the jobs within the window |
| `ApplyLimits.WaitsWithoutRoom` | crates/lighter-fs/src/apply.rs:504-520 | and waits only while one of them is over |
| `ApplyLimits.QueueIsLimited` | crates/lighter-fs/src/apply.rs:504-520 | so the queue never holds more than one job over the window, nor more payload than the cap and one job |
| `ApplyLimits.GoesOnOrWaits` | crates/lighter-fs/src/apply.rs:600-629 | a caller at its look goes on if and only if its own condition holds (room, the watermark reached, the flag down or nothing queued), and waits if and only if not |
| `ApplyLimits.HeldTakesNothing` | crates/lighter-fs/src/apply.rs:486-496 | from a hold to the next release no job is taken |
| `ApplyLimits.CompletionWakes` | crates/lighter-fs/src/apply.rs:803-813 | a completion that readies several jobs outside the serial lane leaves no worker asleep; one wakes one if any sleeps and no other; none wakes nobody |
| `ApplyRuns.NoLostWakeUp` | crates/lighter-fs/src/apply.rs:574-629 | in every state of every run both halves of the wake-up guarantee hold |
| `ApplyRuns.NoStall` | crates/lighter-fs/src/apply.rs:693-815 | if every worker sleeps, the queue is not held and no notification is owed, nothing is unfinished and no caller sleeps |
| `ApplyLiveness.StepWork` | crates/lighter-fs/src/apply.rs:693-817 | for any k, exactly the steps that work on the first k jobs take one off the work left on them; pushes and all else leave it |
| `ApplyLiveness.WorkConserved` | crates/lighter-fs/src/apply.rs:693-817 | while nothing is pushed, each pick, effect, repayment and completion takes exactly one off the work left, each completion one off the unfinished jobs, and nothing else changes either |
| `ApplyFair.EveryFairRunEmpties` | crates/lighter-fs/src/apply.rs:697-815 | once pushes stop, every fair run empties the queue in exactly as many completions as jobs were unfinished, and the host is then the serial one |
| `ApplyFair.CatchesUp` | crates/lighter-fs/src/apply.rs:697-815 | in every fair run in which only jobs of the wide lane are still pushed, for ever if need be, the watermark reaches everything pushed before |
| `ApplyFair.EveryDrainReturns` | crates/lighter-fs/src/apply.rs:579-609 | under an endless storm of such pushes every `drain_to` returns |
| `ApplyFair.EveryBarrierReturns` | crates/lighter-fs/src/apply.rs:600-629 | once pushes stop, every `drain_to` and `wait_while` of a fair run returns |
| `ApplyStarve.DrainOutlastsIffWide` | crates/lighter-fs/src/apply.rs:149-165 | for every number of workers and every setting the code allows: every `drain_to` returns whatever of some kinds is pushed for ever after, if and only if all of those kinds are of the wide lane |
| `ApplyStarve.DrainCanStarve` | crates/lighter-fs/src/apply.rs:705-715 | for any other kind, serial or bounded: a fair run in which jobs of that kind alone are pushed after it, and a `drain_to` of a clone never returns |
| `ApplyFair.EveryPusherPushes` | crates/lighter-fs/src/apply.rs:515-520 | a pusher blocked on the window or the byte cap does push, in every fair run in which nobody else pushes from then on |
| `Ports.SortApart` | crates/lighter-docker/src/lib.rs:509 | the addresses of one port are listed once each in ascending order |
| `Ports.Forwards.WithdrawGone` | crates/lighter-docker/src/lib.rs:484-497 | withdraws what is no longer desired and forgets exactly what the mapper agreed to withdraw |
| `Ports.Forwards.ByPort` | crates/lighter-docker/src/lib.rs:499-505 | groups the desired bindings by protocol and port, each once |
| `Ports.Forwards.Open` | crates/lighter-docker/src/lib.rs:518-528 | opens bindings in turn and stops at the first refusal |
| `Ports.Forwards.Close` | crates/lighter-docker/src/lib.rs:540-549 | withdraws what a refused port has open, whatever the mapper answers |
| `Ports.Forwards.TryGroup` | crates/lighter-docker/src/lib.rs:508-563 | a port not wholly forwarded ends wholly forwarded with no failure, or wholly not with its own protocol, number and every address on record |
| `Ports.Forwards.Apply` | crates/lighter-docker/src/lib.rs:483-565 | the whole pass, through any answers of the mapper, is one of the specified passes, and what is open is what the calls made of it |
| `Ports.AppliedAllOrNone` | crates/lighter-docker/src/lib.rs:478-565 | whatever the mapper answers, each desired port is all or none and nothing is recorded that is not open |
| `Ports.FailedIsClosedIffNoneStale` | crates/lighter-docker/src/lib.rs:506-561 | the failures on record are exactly the closed ports if and only if no port on record as failed already had every desired address forwarded before the pass |
| `Ports.FailedNamesEveryAddress` | crates/lighter-docker/src/lib.rs:550-561 | a closed port's failure has its own protocol and number, lists all of its addresses, in order, and names one of them that the mapper refused in that pass |
| `Ports.ClosedOnlyIfRefused` | crates/lighter-docker/src/lib.rs:478-565 | a desired binding is left closed only if the mapper refused one of the same protocol and port in that very pass |
| `Ports.AscendingIs` | crates/lighter-docker/src/lib.rs:509 | ascending is the V4 addresses and then the V6 ones, each by number |
| `Ports.WithdrawalsSucceed` | crates/lighter-docker/src/lib.rs:483-565 | if withdrawals succeed: recorded equals open, within desired, failures exactly the closed ports, and the next pass starts from the same |
| `Ports.Converges` | crates/lighter-docker/src/lib.rs:483-565 | from any state, with withdrawals succeeding and no refusals, one pass reaches exactly the desired set; no failure remains exactly if none was stale |
| `Ports.QuietIffConverged` | crates/lighter-docker/src/lib.rs:483-517 | a pass makes no call of the mapper exactly when what is forwarded is what is desired |
| `Ports.EveryHistory` | crates/lighter-docker/src/lib.rs:265-271 | after any history of desired sets, refusals and failed withdrawals: all or none, recorded within open, and every failure on record, stale or not, is of its own protocol and port and names a binding of it that the mapper refused |
| `Ports.EveryCleanHistory` | crates/lighter-docker/src/lib.rs:265-271 | after any history in which withdrawals succeed: recorded equals open, within desired, and the failures are exactly the closed ports with all their addresses |
| `Ports.StaleFailure` | crates/lighter-docker/src/lib.rs:515-517 | three passes of `Apply` against a mapper that fails one withdrawal and one opening, after which a forwarded port is still on record as failed |
| `Reconcile.NeverOlderAfterNewer` | crates/lighter-docker/src/lib.rs:461-476 | with the mutex held from query to apply, in every run of any number of threads no snapshot is applied after a newer one |
| `Reconcile.AppliesWhatItLocked` | crates/lighter-docker/src/lib.rs:311-314 | a pass applies nothing older than what Docker published and containers listened on when its thread took the mutex |
| `Reconcile.AppliesFresh` | crates/lighter-docker/src/lib.rs:461-476 | what a pass applies was so at some time between its taking the mutex and its applying it |
| `Instance.OneOwner` | crates/lighter-cli/src/instance.rs:263-289 | in every run of acquires, publishes, drops, kills with delayed release and probes, at most one process owns the home |
| `Instance.RecordStands` | crates/lighter-cli/src/instance.rs:292-305 | a publisher's record and pid file are its own until its drop, even after it is killed |
| `Instance.OnlyItsOwnDrop` | crates/lighter-cli/src/instance.rs:315-333 | the step that removes a living publisher's record is its own drop |
| `Instance.AcquiredIsClear` | crates/lighter-cli/src/instance.rs:276-289 | what `acquire` gives is a home without records, whatever an earlier owner left |
| `Instance.DropsItsOwn` | crates/lighter-cli/src/instance.rs:315-333 | a publisher's drop removes its own two records while it still holds the lock |
| `Instance.ReadNamesAnOwner` | crates/lighter-cli/src/instance.rs:169-178 | the three separate looks of `Identity::read`, with anything between them: a recorded process alive at the end owned the home when the record was read, unless its own removal had failed |
| `Instance.NotFreeMeans` | crates/lighter-cli/src/instance.rs:215-220 | a held lock is an owner's, an acquirer's clearing the home, or a probe's |
| `Instance.FailureIsNoOwner` | crates/lighter-cli/src/instance.rs:215-220 | a failed acquire does not prove an owner: a probe alone causes it |
| `Activation.StepKeeps` | crates/lighter-cli/src/upgrade.rs:388-518 | every step of installers, recoveries, rollbacks, prunes and starts, with a stop possible between any two, keeps the locks, disk, journal and pruning invariants |
| `Activation.ActivationCompletes` | crates/lighter-cli/src/upgrade.rs:464-508 | an activation that completes has selected the very release its process staged, left both public paths leading through `current`, and removed the journal last |
| `Activation.RollbackCompletes` | crates/lighter-cli/src/upgrade.rs:486-506 | a rollback that completes has selected again what its activation found selected, with the same public paths, and removed the journal last |
| `Activation.JournalOrigin` | crates/lighter-cli/src/upgrade.rs:431-462 | in every run a journal on disk names what some process staged and what it found selected, or the executable it adopted, before writing it |
| `Activation.JournalCovers` | crates/lighter-cli/src/upgrade.rs:456-462 | in every run a journal on disk means `current` is absent, the previous or the next generation, and the generations it names are there |
| `Activation.RecoveryCompletes` | crates/lighter-cli/src/upgrade.rs:204-236 | a recovery that completes has selected the previous generation (the next if none), left `bin` and `share` leading through `current`, and removed the journal last |
| `Activation.RecoverableIffClear` | crates/lighter-cli/src/upgrade.rs:204-236 | from every reachable state with a journal and no lock held, some continuation recovers it if and only if neither a stray file nor an earlier backup is in the way of the public paths |
| `Activation.CanRecover` | crates/lighter-cli/src/upgrade.rs:222-234 | the recovery itself, step by step, from wherever the activation was interrupted |
| `Activation.NeverRecovers` | crates/lighter-cli/src/upgrade.rs:104-115 | with something in the way the journal stays on disk in every continuation, whoever does what |
| `Activation.PublicPathsComplete` | crates/lighter-cli/src/upgrade.rs:99-118 | `public_paths` completes exactly when neither a stray file nor an earlier backup is in its way, and then both paths lead through `current` with the old payload kept |
| `Activation.PublicPathsRerun` | crates/lighter-cli/src/upgrade.rs:99-118 | stopped after any of its steps it can be rerun from its start with nothing lost |
| `Activation.LegacyIsKept` | crates/lighter-cli/src/upgrade.rs:104-116 | no run loses a payload from before the updater |
| `Activation.SelectsUnderBothLocks` | crates/lighter-cli/src/upgrade.rs:464-485 | `current` changes only while the activator holds the exclusive lease, the machine lock and the installer lock, under a journal |
| `Activation.PublishesWhatIsSelected` | crates/lighter-cli/src/run.rs:94-98 | a step that publishes a machine has a check of its lease before it, and from that check through the publish the generation checked stayed selected and on disk |
| `Activation.DeletesNothingNeeded` | crates/lighter-cli/src/upgrade.rs:295-316 | no run deletes a generation while a journal exists, nor the selected one, nor one a started machine runs from |
| `Activation.NeededIsThere` | crates/lighter-cli/src/upgrade.rs:307-316 | every generation a started machine runs from is on disk |
| `Activation.PruneCompletes` | crates/lighter-cli/src/upgrade.rs:307-316 | a prune that runs to its end leaves on disk nothing of what was surplus when it looked, whatever else goes on |
| `Prune.LegacyRanksLowest` | crates/lighter-cli/src/upgrade.rs:330-333 | an adopted generation ranks below every version |
| `Prune.StableIffWritten` | crates/lighter-cli/src/upgrade.rs:330-333 | a name is a stable version if and only if it is three numbers of 64 bits written out with dots between them |
| `Prune.NewerRanksHigher` | crates/lighter-cli/src/upgrade.rs:334-335 | of two generations named for versions the one of the greater version ranks higher |
| `Prune.SurplusIffOlder` | crates/lighter-cli/src/upgrade.rs:317-342 | a generation named for a version, not the selected one, is listed if and only if nothing runs from it and one of a later version is there that is not the selected one |
| `Prune.Surplus` | crates/lighter-cli/src/upgrade.rs:317-342 | lists exactly the generations that are not selected, not the greatest other, and not in use |
| `Prune.NeverSurplus` | crates/lighter-cli/src/upgrade.rs:304-342 | whatever is listed is a directory, no staging one, not selected, holding no running executable, and a greater generation other than the selected one is kept |
| `Chunks.Reader.ReadChunk` | crates/lighter-docker/src/http.rs:402-425 | one chunk off the reader, or the end, or the error, as specified |
| `Chunks.SpelledIsRead` | crates/lighter-docker/src/http.rs:412-414 | the number read from digits is the one whose remainders and quotients by 16 they spell, in either case |
| `Chunks.SizeDecides` | crates/lighter-docker/src/http.rs:409-424 | any size line, after any blanks and before any extension, whose size stands for a number asks for that many bytes and the line break after them |
| `Chunks.MalformedIffNoNumber` | crates/lighter-docker/src/http.rs:412-414 | it is an error if and only if its size stands for no number of 64 bits |
| `Chunks.NoSizeEnds` | crates/lighter-docker/src/http.rs:409-411 | a line without a size ends the body |
| `Chunks.Reader.ReadBody` | crates/lighter-docker/src/http.rs:319-323 | the loop returns every chunk's bytes joined, exactly when the body ends without an error |
| `Chunks.Reader.TakeLines` | crates/lighter-docker/src/http.rs:386-396 | the inner loop takes exactly the ended nonempty lines and leaves what follows the last newline |
| `Chunks.Reader.StreamBody` | crates/lighter-docker/src/http.rs:375-399 | handles exactly the nonempty newline-ended lines of the bytes received, in order, also when the stream ends in an error |
| `Chunks.RoundTrip` | crates/lighter-docker/src/http.rs:402-425 | every body split into nonempty chunks, with any spelling of their sizes in hexadecimal and any extension that is text, reads back as it was |
| `Chunks.PlainRoundTrip` | crates/lighter-docker/src/http.rs:402-425 | the same of parts sent under their sizes printed plainly |
| `Utf8.DecodesIffEncoded` | crates/lighter-docker/src/http.rs:404 | a line is text if and only if it is the UTF-8 encoding of some scalar values, those and no others |
| `Chunks.Cut` | crates/lighter-docker/src/http.rs:402-425 | a body cut anywhere in a chunk: the chunks before it are read, and the cut is taken for the end if and only if what is there of the size is nothing or zeros; it is malformed exactly if it leaves half a character, and otherwise short |
| `Chunks.CutInLast` | crates/lighter-docker/src/http.rs:409-417 | a body cut anywhere in its last line is read whole, unless the cut leaves half a character |
| `Chunks.LinesOfMore` | crates/lighter-docker/src/http.rs:379-386 | lines found as bytes arrive are the lines of all of them |
| `Chunks.LinesOfJoined` | crates/lighter-docker/src/http.rs:386-392 | lines joined by newlines are found again, without the empty ones and an unended tail |
| `Chunks.FramingIndependence` | crates/lighter-docker/src/http.rs:379-398 | the events of a body do not depend on where its chunks were cut |
| `HotSet.Policy.Touched` | crates/lighter-fs/src/cache.rs:214-228 | in place: records the touch, sweeps by the active cooldown past 256 entries, and stores the count, so that the state is that of the whole history |
| `HotSet.Policy.Negotiated` | crates/lighter-fs/src/cache.rs:183-198 | in place: changes the profile unless the watch was lost |
| `HotSet.Policy.AskHot` | crates/lighter-fs/src/cache.rs:252-262 | with a monotone clock and equal cooldowns: whether the latest touch in the whole history is younger than the cooldown |
| `HotSet.Policy.Validity` | crates/lighter-fs/src/cache.rs:232-242 | with a monotone clock and equal cooldowns: zero exactly while the latest touch in the whole history is younger than the cooldown, else the file, directory or negative lease of the profile the history negotiated |
| `HotSet.Policy.AttrValidity` | crates/lighter-fs/src/cache.rs:245-250 | the same for attributes |
| `HotSet.SweptAgrees` | crates/lighter-fs/src/cache.rs:214-262 | with equal cooldowns, over every history with a monotone clock, the swept map answers as a log that forgets nothing |
| `HotSet.MapStaysSmall` | crates/lighter-fs/src/cache.rs:214-229 | after a touch the map holds at most 256 directories, unless all in it are younger than the cooldown |
| `HotSet.AgreesIffEqualCooldowns` | crates/lighter-fs/src/cache.rs:219-226 | it does so over every history if and only if the two profiles have the same cooldown |
| `HotSet.ForgetfulForgets` | crates/lighter-fs/src/cache.rs:219-226 | with different cooldowns: a touch, 256 more one shorter cooldown later, and a change of profile lose a touch the log still calls hot |
| `HotSet.LostForGood` | crates/lighter-fs/src/cache.rs:200-203 | after a lost watch no later negotiation restores the pushed profile |
| `Shares.Normalized` | crates/lighter-cli/src/config.rs:430-457 | for every list: the result covers the same paths; it has no folder in another if and only if no one-byte relative name comes before the root, and then it is exactly the outermost folders, trimmed, once each, in the final order |
| `Shares.WithinByComponents` | crates/lighter-cli/src/config.rs:459-463 | a folder holds exactly the paths whose components begin with its own |
| `Shares.DefaultsFirst` | crates/lighter-cli/src/config.rs:449-456 | the result lists the defaults first, in their own order, and the rest as text |
| `Text.OrderOfBytes` | crates/lighter-cli/src/config.rs:455 | ordering text by its characters orders it by its bytes |
| `Text.LenIsOfBytes` | crates/lighter-cli/src/config.rs:442 | the length sorted by is the number of bytes |
| `Shares.AbsoluteIsOrderly` | crates/lighter-cli/src/config.rs:430-457 | a list of absolute paths always meets that condition |
| `Shares.RelativeBeforeRoot` | crates/lighter-cli/src/config.rs:442-456 | a relative name of one byte and then the root come out as the root and the name, nested |
| `Shares.RootBeforeRelative` | crates/lighter-cli/src/config.rs:442-456 | which normalised again, or listed the other way round, come out as the root alone |
| `Sorting.SortStable` | crates/lighter-cli/src/config.rs:442 | sorting by length keeps names of the same length in order |
| `Shares.NormalIsNonNested` | crates/lighter-cli/src/config.rs:428-429 | no folder of the result is inside another |
| `Shares.CoverageKept` | crates/lighter-cli/src/config.rs:428-429 | the result covers exactly the paths the input covers |
| `Shares.CanonicalIff` | crates/lighter-cli/src/config.rs:430-457 | for every two lists: they normalise to the same list if and only if they cover the same paths and list the same one-byte names before a root |
| `Shares.IdempotentIff` | crates/lighter-cli/src/config.rs:430-457 | for every list: normalising again changes nothing if and only if every one-byte relative name listed before the root also sorts before it; a list of absolute paths has none |
| `Shares.OrderIndependentIff` | crates/lighter-cli/src/config.rs:430-457 | for every two lists of the same entries: the result is the same if and only if they list the same one-byte names before a root |
| `Shares.OrderlyIsCanonical` | crates/lighter-cli/src/config.rs:430-457 | for orderly lists, as those of absolute paths are: the results are equal exactly when the lists cover the same paths, and normalising is idempotent |
| `Shares.NormalIsOrderly` | crates/lighter-cli/src/config.rs:430-457 | a list in normal form is orderly, and normalising gives it back |
| `Shares.Config.Share` | crates/lighter-cli/src/config.rs:263-274 | of any stored list: refuses exactly the relative, the root and the already covered; otherwise coverage grows by exactly the folder and the list becomes normal |
| `Shares.Config.Unshare` | crates/lighter-cli/src/config.rs:278-291 | of any stored list: removes the first entry of that name, and coverage shrinks by exactly it if and only if no other entry is in it or around it, as in every normal list |
| `Shares.LosesExactlyIffAlone` | crates/lighter-cli/src/config.rs:278-283 | the same of any list and entry |
| `Shares.AllButTheRoot` | crates/lighter-cli/src/config.rs:278-283 | an entry of a normal list can be unshared by its own name if and only if it is not the root |
| `Shares.Upgraded` | crates/lighter-cli/src/config.rs:411-426 | a list that names the home, but for slashes at the end, covers the defaults and whatever else it named; another covers what it did |
| `Routes.HoldsIsPrefix` | crates/lighter-cli/src/link.rs:254-260 | an address lies in a network's interval exactly when it begins with the network's prefix bits |
| `Routes.ClashesIffMeet` | crates/lighter-cli/src/link.rs:254-260 | masking by the shorter prefix finds a route exactly when its interval meets the subnet's, for prefixes 0 to 32 |
| `Routes.Clash` | crates/lighter-cli/src/link.rs:254-260 | the first route whose interval meets the subnet's, or none |
| `Routes.FindSubnet` | crates/lighter-cli/src/link.rs:181-187 | the first of 10.211/16 to 10.250/16 whose interval meets no route's, or that there is none |
| `Routes.CandidateHolds` | crates/lighter-cli/src/link.rs:183-184 | a candidate's interval is the addresses numbered as 10.b.0.0 to 10.b.255.255 |
| `Routes.AddressValue` | crates/lighter-cli/src/link.rs:292-294 | an address of four octets is the number they spell in base 256 |
| `Routes.ReadRoute` | crates/lighter-cli/src/link.rs:286-297 | a printed route's address and prefix, with octets and prefix left off, and the ranges passed over |
| `Routes.SpecialIs` | crates/lighter-cli/src/link.rs:294-297 | the routes passed over are those of 224.0.0.0 to 239.255.255.255, of 127.0.0.0 to 127.255.255.255 and of 255.255.255.255 |
| `Routes.PassedOverIff` | crates/lighter-cli/src/link.rs:262-264 | one of them overlaps a candidate if and only if its prefix is 0, or 1 and it is about 127 |
| `Routes.PrintedShort` | crates/lighter-cli/src/link.rs:289-293 | a network printed without its prefix holds exactly the addresses that begin with its octets |

## Left out

- The retired queue: `Drop` drains before it retires, and pushes that race it run inline, outside the ordering.
- Free-space checks, histograms, timing, quality of service and tuning constants of the queue: they do not bear on order.
- Work conservation of the queue: a bounded job that readies a serial successor may leave a key waiting beside sleeping workers, so only progress is claimed. A `wait_while` is shown to return once pushes stop; its flag may be raised again for ever.
- Relaxed memory orders of the queue's atomics.
- What an inode's `still` flag means: a running job may lower any flag, and anybody may raise one.
- ApplyQueue.Apply.Push: models `push` once its wait is over; the wait, and the order of waking, are steps of `ApplySystem`.
- Chunks.Reader.ReadChunk: takes a size over the largest a buffer may have, 2^63 - 1 bytes, for a body cut short, where the code panics at the buffer's allocation.
- JSON parsing of bodies and events, the request and header half of HTTP, and its deadlines and sockets.
- HotSet.SweptAgrees: is about serialized operations; readers between a map write and its count are not modelled, nor is the `Invalidator`.
- Routes.ReadRoute: starts from octets and a prefix already split and parsed; the text of `netstat` is not modelled.
- The kept link, its file and its retry against a bridge that is going away in `plan`, and the MAC and network identifiers.
- Prune.Surplus: takes directory entries as given; a name that is not valid UTF-8 is not modelled.
- Signatures, manifests, staging copies, login services, child processes and verification of the restarted machine in activation: any of them may fail at any point.
- The check that the selection did not change during a download (`unchanged_selection`): it only refuses more.
- Instance.ReadNamesAnOwner: a process is a token no other ever has; the audit token's contents, zombies and homes that move are not modelled.
- `published_ports`, `host_published` and the backoff of retries: easy filters and timing.
- Hypervisor, GPU, network and disk foreign calls, the filesystem server's overlays, reports and benchmarks.
