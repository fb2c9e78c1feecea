# zmux-server: a verified model

This project models the parts of zmux-server that are hard to get right and proves what they promise.

- **The process supervisors.** The second manager is modelled twice. `ProcessManager2` is a class over the
  allocator, the two slot pools and the indexed heap, each a verified class of its own; its methods are proved to
  compute functions on a value `Core`. `Manager2Machine` interleaves those functions step by step: the scheduling
  loop with a program counter, callers of Add and Remove, UpdateLimits split at every use of a pool and every
  Close, one supervisor with a phase for each launched PID, and an environment that makes processes ready, finishes
  them and advances an integer clock. Slot pools are used outside the manager's lock, as in the source.
  `Manager2Refinement` shows that the methods are runs of the machine. A step that would panic, start a
  second supervisor for a PID or read a missing spec records a fault, and the theorems say which faults no run
  reaches. The first manager has the same two forms.
- **Quota accounting.** The counters and indices of the client service are compared with a recount over the stored
  channels, through every call of the two services, store failures and restarts. Quotas are stated on the recount,
  not on the counters.
- **URLs and shell quoting.** The cursor-based splitter, the joiner, userinfo embedding and the quoter, with their
  round trips over all strings: `AvUrlGrammar` says, without the splitter, what it is to be split right.
- **Ordered stores and the by-ref outputs patch.**

Start with `Manager2Machine.dfy`, `Manager2Invariant.dfy`, then `Manager2Capacity.dfy`, `Manager2Witness.dfy`,
`Manager2Closing.dfy`, `Manager2Identity.dfy`, `Manager2Laws.dfy` and `Manager2Timing.dfy`; for the services with `Ledger.dfy`, `Quotas.dfy`, `ChannelService.dfy`
and `ServiceRuns.dfy`; for the stores with `StoreRuns.dfy`.

## Where code and documentation disagree

The model follows the code.

- `process_manager2.go:42-54` promises that a launched process always finds an onflight slot. The loop only checks for
  one free slot in each pool. `Manager2Witness.GuaranteeKeptIff` gives the limits for which the promise holds;
  `Manager2Capacity.PipelineBound` is the bound that does hold, and `PipelineBoundIsTight` shows it cannot be improved.
- `process_manager2.go:30-31` says that a PID is released after its process has terminated. A supervisor that is refused a
  slot or cannot enter returns without waiting for Done: `Manager2Identity.ReleaseAwaitsProcessIff`. It has asked
  the process to close by then, at least: `ExitAfterDoneOrClose`. The first manager
  does wait: `Manager1Invariant.ReleasedOnlyWhenDone`.
- A PID whose unit is removed while only pending is never released: `Manager2Identity.RemoveLeaksIffPending`, `LeakIsForever`
  and `IdleManagerCanBeExhausted`.
- `UpdateLimits` assumes non-negative limits; `Manager2Refinement.UpdateIsARun` says exactly when it slices out of bounds.
- The channel service is meant to keep managers in step with the stored channels. It writes record, memory and counters before it
  asks a manager, and a manager without a free PID panics, which the HTTP layer recovers: the channel is then stored, enabled
  and counted, and nothing runs it. `ServiceRuns.Serve` says exactly when managers and stored channels agree.

## How to read the model

- Time is an integer. A condition-variable wait is a step enabled by its condition. The wake-up channel of
  capacity one is a boolean.
- Supervisors are keyed by PID; that a PID never has two is proved, not assumed (`SecondSupervisor` is an unreachable fault).
- A process is started, possibly ready, eventually done; `closing` is the set of PIDs whose current process was asked to close.
- A negative limit or an exhausted allocator panics under the manager's lock, which is released on the way; the HTTP layer
  recovers, so the machine records the fault and goes on.
- A character stands for one byte of a Go string.
- Redis is a map and a counter; whether a command succeeds is a parameter, and a failed command has no effect. SCAN is taken to
  yield each key once, and keys to be written in canonical decimal form.
- A service call is one atomic step. The services run on the verified `DataStore` and `ObjectStore`; a process manager appears
  in them as the set of its registered units and the capacities of its pools. Whether a manager has a PID left (`addOk`) is a
  parameter of the calls that register a channel; `ManagerAnswers` ties units, capacities and panics to the managers' own tables.

## Model

| member | source | states |
|---|---|---|
| `PidAllocation.ScanTakesFirst` | internal/infrastructure/processmgr/pid_allocator.go:29-58 | The PID handed out is the first free one met on the cyclic walk from the cursor: everything walked over before it is in use. |
| `PidAllocation.ExhaustedIffFull` | internal/infrastructure/processmgr/pid_allocator.go:53-56 | The allocator gives up exactly when every PID of 1..32768 is in use. |
| `PidAllocation.AllocTakesNextFree` | internal/infrastructure/processmgr/pid_allocator.go:29-58 | In numbers: the next free PID at or above the cursor, else the lowest free one; none exactly when all of 1..32768 are taken. |
| `PidAllocation.PidAllocator.Alloc` | internal/infrastructure/processmgr/pid_allocator.go:29-58 | The scanning loop terminates, finds that first free PID, marks it, and leaves the cursor one past it (wrapping); on exhaustion cursor and table are as before. |
| `PidAllocation.PidAllocator.Release` | internal/infrastructure/processmgr/pid_allocator.go:62-67 | Exactly the given PID becomes free; unknown PIDs are ignored. |
| `SlotPools.SlotPool.TryAcquire` | internal/infrastructure/processmgr/slot_pool.go:46-61 | Takes a slot exactly when one is free and the id holds none; a full pool is left alone and a second acquisition by the same id is reported (the panic). The counter stays equal to the number of owners. |
| `SlotPools.SlotPool.Release` | internal/infrastructure/processmgr/slot_pool.go:75-86 | Gives back the slot of an owner; a non-owner is reported (the panic) and nothing changes. |
| `SlotPools.SlotPool.ListAcquired` | internal/infrastructure/processmgr/slot_pool.go:90-98 | Lists every owner exactly once, in some order. |
| `SlotPools.SlotPool.UpdateLimit` | internal/infrastructure/processmgr/slot_pool.go:103-113 | The limit becomes the new one, negative values becoming 0; owners are untouched even if there are now too many. |
| `Scheduling.RootIsMinimal` | internal/infrastructure/processmgr/scheduler.go:73-82 | In a heap no event is sooner than the one at the root. |
| `Scheduling.Scheduler.Push` | internal/infrastructure/processmgr/scheduler.go:33-43 | The indexed heap refines a map from id to time: pushing sets the id's time, replacing a pending event of the same id; heap order, event positions and the bijection with the table are kept. |
| `Scheduling.Scheduler.Next` | internal/infrastructure/processmgr/scheduler.go:46-52 | Returns an event of minimal time over everything scheduled, and nothing exactly when the schedule is empty. |
| `Scheduling.Scheduler.Pop` | internal/infrastructure/processmgr/scheduler.go:55-61 | Removes exactly the event that next returns. |
| `Scheduling.Scheduler.Remove` | internal/infrastructure/processmgr/scheduler.go:64-71 | Removes exactly the given id, wherever it is in the heap, or nothing when it is not pending. |
| `Scheduling.Scheduler.Up` | internal/infrastructure/processmgr/scheduler.go:80-88 | container/heap's sift-up restores the heap order from one misplaced position, keeps the same events and keeps every event's index its true position. |
| `Scheduling.Scheduler.Down` | internal/infrastructure/processmgr/scheduler.go:80-88 | container/heap's sift-down does the same downwards, and reports whether it moved; when it did not, only the starting position can be out of order. |
| `Scheduling.Scheduler.HeapRemove` | internal/infrastructure/processmgr/scheduler.go:84-103 | container/heap's Remove takes out exactly the event at the given position and restores order. |
| `ProcessManagers2.ProcessManager2.Add` | internal/infrastructure/processmgr/process_manager2.go:117-135 | A known unit is ignored; a new one gets the allocator's next PID, a spec and an immediate launch; refused only when no PID is left. |
| `ProcessManagers2.ProcessManager2.Remove` | internal/infrastructure/processmgr/process_manager2.go:138-156 | The unit, its spec, its process entry and its pending launch are gone, and its live process was asked to close. |
| `ProcessManagers2.ProcessManager2.UpdateLimits` | internal/infrastructure/processmgr/process_manager2.go:162-207 | Both limits are set and the excess owners of each pool, taken from the front of an arbitrary listing, are asked to close; it fails in the slice exactly for a negative limit that differs from the current one. |
| `ProcessManagers2.ProcessManager2.LaunchProcessUnsafe` | internal/infrastructure/processmgr/process_manager2.go:278-303 | A process that cannot be built or started gives its preflight slot back and is scheduled after its cooldown; a started one is entered into the table. |
| `ProcessManagers2.ProcessManager2.LoopTurn` | internal/infrastructure/processmgr/process_manager2.go:231-271 | One locked section of the loop: it looks at a soonest event, leaves everything alone when that is not due or no preflight slot can be had, and otherwise takes the slot, pops and launches that very PID. |
| `ProcessManagers2.ProcessManager2.HandleExit` | internal/infrastructure/processmgr/process_manager2.go:355-373 | A current PID is scheduled after its cooldown, any other is given back; the process entry is gone either way. |
| `ProcessManagers2.ProcessManager2.Supervise` | internal/infrastructure/processmgr/process_manager2.go:316-349 | Up to the deferred exit handler: the preflight slot is back on every path and so is an onflight slot that was got; the process is asked to close exactly when it was ready and was refused a slot or could not enter. |
| `ProcessManagers2.ProcessManager2.SuperviseInstance` | internal/infrastructure/processmgr/process_manager2.go:316-349 | A supervisor that nobody interferes with returns both kinds of slot on every path and closes the process when it was refused or could not be entered. |
| `ProcessManagers2.ProcessManager2.Onflight` | internal/infrastructure/processmgr/process_manager2.go:209-211 | Answers the number of PIDs that own an onflight slot. |
| `Manager2Refinement.TurnIsARun` | internal/infrastructure/processmgr/process_manager2.go:231-302 | What LoopTurn computes for a due PID is a run of the interleaved machine that records no fault. |
| `Manager2Refinement.UpdateIsARun` | internal/infrastructure/processmgr/process_manager2.go:162-207 | What UpdateLimits computes is a run of the machine, for any listing order; the slice fault is recorded exactly for a negative limit that is news to its pool. |
| `Manager2Refinement.SupervisionIsARun` | internal/infrastructure/processmgr/process_manager2.go:316-373 | What SuperviseInstance computes, from the start of the process on, is a run of the machine that ends without the supervisor and without a fault. |
| `Manager2Invariant.StepKeepsInv` | internal/infrastructure/processmgr/process_manager2.go:117-384 | Every step of the loop, the callers, the supervisors and the environment, in any interleaving and with any limits, keeps the invariant relating tables, schedule, PIDs, slots, phases, processes and wake-ups. |
| `Manager2Invariant.RunKeepsInv` | internal/infrastructure/processmgr/process_manager2.go:117-384 | So does every run. |
| `Manager2Invariant.ReachableInv` | internal/infrastructure/processmgr/process_manager2.go:84-113 | The invariant holds in every state of every run of a new manager. |
| `Manager2Identity.UnitHasOneHome` | internal/infrastructure/processmgr/process_manager2.go:231-303 | In every reachable state a registered unit's PID is either pending or owned by one supervisor, never both and never neither, except for the one PID that the loop is launching under the lock, which is neither. |
| `Manager2Identity.PendingIsAuthoritative` | internal/infrastructure/processmgr/process_manager2.go:231-284 | Every scheduled PID, and the one being launched, is the current PID of a unit and has a spec, so a launch never reads a missing one. |
| `Manager2Identity.NoProtocolFault` | internal/infrastructure/processmgr/slot_pool.go:46-86 | No run reaches the double-acquire or non-owner-release panic, a second supervisor for a PID or a missing spec; usage equals the number of owners; the slots of a PID are a function of its supervisor's phase, and a PID without one holds none. |
| `Manager2Identity.NoLostWakeup` | internal/infrastructure/processmgr/process_manager2.go:217-250 | A parked loop has a wake-up token, or parked on an empty schedule that is still empty, or on a deadline that nothing pending precedes. |
| `Manager2Identity.AddIssuesFreshPid` | internal/infrastructure/processmgr/process_manager2.go:117-135 | The PID handed out belongs to no unit, no supervisor, no slot and no pending launch, so a PID held by a unit or an unfinished supervisor is never reissued. |
| `Manager2Identity.ExitIsConfined` | internal/infrastructure/processmgr/process_manager2.go:355-373 | The exit of a supervisor whose unit was removed or re-added frees its PID and changes nothing else; the exit of a current one schedules exactly its restart. |
| `Manager2Identity.RemoveLeaksIffPending` | internal/infrastructure/processmgr/process_manager2.go:138-156 | Removing a unit loses its PID (in use, though nobody has it) exactly when the unit was only waiting to be launched. |
| `Manager2Identity.LeakChanges` | internal/infrastructure/processmgr/process_manager2.go:138-156 | Nothing but such a Remove ever loses a PID, and no step brings a lost one back. |
| `Manager2Identity.LeakIsForever` | internal/infrastructure/processmgr/process_manager2.go:355-373 | A lost PID stays lost in every run. |
| `Manager2Identity.IdleManagerCanBeExhausted` | internal/infrastructure/processmgr/pid_allocator.go:53-56 | A manager without a unit and without a process can be reached in which Add panics for want of a PID. |
| `Manager2Identity.ReleaseAwaitsProcessIff` | internal/infrastructure/processmgr/process_manager2.go:30-31 | The documented order, PID released after process termination, is broken in some run (an exit that is possible takes the PID out of use while its process is not done) exactly when both limits are at least 1, that is, whenever anything can be launched at all. |
| `Manager2Identity.RestartAwaitsProcessIff` | internal/infrastructure/processmgr/process_manager2.go:34-40 | The lifecycle said to follow the first manager exactly, a restart only after Done, is broken in some run (an exit schedules the PID again while its process is not done) under the same condition exactly. |
| `Manager2Identity.ExitAfterDoneOrClose` | internal/infrastructure/processmgr/process_manager2.go:316-349 | What does hold in every run, with any limits: when a supervisor can exit, its process is done or was asked to close, so an early release or restart only follows a Close. |
| `Manager2Closing.StepAccounted` | internal/infrastructure/processmgr/process_manager2.go:162-207 | Every step, with UpdateLimits given non-negative limits and interleaved at each listing and each Close, keeps the account of owners that are neither closed nor about to be. |
| `Manager2Closing.LimitsRestored` | internal/infrastructure/processmgr/process_manager2.go:158-207 | Across any run of non-negative raises and cuts, removals, promotions and exits, whenever no UpdateLimits is in progress at most as many owners of each pool as its limit have not been asked to close. |
| `Manager2Capacity.StepBounded` | internal/infrastructure/processmgr/process_manager2.go:162-271 | With UpdateLimits kept to at most P and O, every step, those of UpdateLimits among them, keeps the bound on slot holders at each position of the loop. |
| `Manager2Capacity.PipelineBound` | internal/infrastructure/processmgr/process_manager2.go:162-271 | However the limits go up and down, as long as they are never set above P and O, at most P + O - 1 PIDs hold a slot of either kind, and none when P or O is below 1. |
| `Manager2Capacity.FixedRun` | internal/infrastructure/processmgr/process_manager2.go:158-171 | A run without UpdateLimits is such a run, and its limits stay what they were. |
| `Manager2Capacity.LoopAlwaysAcquires` | internal/infrastructure/processmgr/process_manager2.go:253-264 | With fixed limits the loop's own preflight tryAcquire never fails. |
| `Manager2Witness.PipelineBoundIsTight` | internal/infrastructure/processmgr/process_manager2.go:217-271 | The bound P + O - 1 is attained by a run, so it cannot be improved. |
| `Manager2Witness.GuaranteeKeptIff` | internal/infrastructure/processmgr/process_manager2.go:42-54 | The documented pipeline guarantee (a Ready process always gets its onflight slot) is kept exactly when P <= 1, or O <= 0, or O is at least the number of PIDs; in all other cases a run strands a process. |
| `Manager2Laws.ClosingChanges` | internal/infrastructure/processmgr/process_manager2.go:138-207 | A Close reaches the process it is meant for and no other: what a step newly asks to close is the removed unit's process, the next owner in excess, or the process its own supervisor gives up; each of these is asked, and only its own exit ends that. |
| `Manager2Laws.UpdateLimitsIs` | internal/infrastructure/processmgr/process_manager2.go:162-207 | A whole UpdateLimits call with limits that are not negative sets both, asks exactly the running processes among the front of each listing that is in excess to close, wakes the loop, and changes nothing else. |
| `Manager2Laws.UpdateClosesNoMore` | internal/infrastructure/processmgr/process_manager2.go:162-207 | Such a call closes owners only, and no more of them than exceed a limit that changed. |
| `Manager2Timing.ScheduleChanges` | internal/infrastructure/processmgr/process_manager2.go:117-384 | How every step changes the schedule: a new unit at once, a failed launch and the exit of a current process after the unit's restart cooldown, off it with its unit or for a launch that has its slot; all else stays as it was. |
| `Manager2Timing.FailedLaunchIsConfined` | internal/infrastructure/processmgr/process_manager2.go:278-303 | A failed launch gives the slot back and schedules the PID after the cooldown of its unit; units, specs, PIDs, processes and supervisors stay as they were. |
| `Manager2Timing.TableChanges` | internal/infrastructure/processmgr/process_manager2.go:117-156 | Units, PIDs and specs change by Add and Remove alone: Add enters the very command line and cooldown it was given under the PID issued, Remove takes out its unit's. |
| `Manager2Timing.NeverEarly` | internal/infrastructure/processmgr/process_manager2.go:231-271 | In every run, what the loop goes to launch was due, and nothing else pending was to be launched before it. |
| `Manager2Timing.ParksIffNothingDue` | internal/infrastructure/processmgr/process_manager2.go:231-250 | With both gates behind it the loop goes on exactly when something is due, and otherwise waits for the soonest time or for something to be scheduled. |
| `Manager2Timing.SupervisorChanges` | internal/infrastructure/processmgr/process_manager2.go:316-349 | A supervisor begins with a started process of its unit and moves by its own steps only: promoted exactly when an onflight slot is free and refused otherwise, gone after its exit. |
| `Manager2Timing.OnflightMeansReady` | internal/infrastructure/processmgr/process_manager2.go:316-336 | In every run an onflight slot is held only by a process that became ready. |
| `Manager2Timing.FaultChanges` | internal/infrastructure/processmgr/process_manager2.go:117-207 | In every run a panic happens exactly where a caller provokes it: a new unit when all of 1..32768 are taken, or a negative limit that is sliced by. |
| `ProcessManagers.ProcessManager.Add` | internal/infrastructure/processmgr/process_manager.go:85-104 | As for the second manager, over its tables. |
| `ProcessManagers.ProcessManager.Remove` | internal/infrastructure/processmgr/process_manager.go:117-136 | Unit, spec, entry and pending launch are gone; a live process was asked to close. |
| `ProcessManagers.ProcessManager.LoopTurn` | internal/infrastructure/processmgr/process_manager.go:151-182 | A soonest event is looked at; when due it is popped and launched, otherwise nothing changes. |
| `ProcessManagers.ProcessManager.HandleExit` | internal/infrastructure/processmgr/process_manager.go:234-263 | The exit handler restarts a current PID after the cooldown it was launched with and gives any other back. |
| `Manager1Invariant.StepKeepsInv` | internal/infrastructure/processmgr/process_manager.go:85-283 | Every step of the first manager keeps its invariant. |
| `Manager1Invariant.UnitHasOneHome` | internal/infrastructure/processmgr/process_manager.go:148-263 | A registered unit is pending or has a process, never both and never neither, and only registered units are pending. |
| `Manager1Invariant.ReleasedOnlyWhenDone` | internal/infrastructure/processmgr/process_manager.go:234-263 | A PID goes back to the allocator only in the exit handler of its own finished process, once its unit is gone or has another PID. |
| `Manager1Invariant.RemoveLeaksIffPending` | internal/infrastructure/processmgr/process_manager.go:117-136 | Removing a unit loses its PID (in use, though nobody has it) exactly when the unit was only pending. |
| `Manager1Invariant.LeakChanges` | internal/infrastructure/processmgr/process_manager.go:117-136 | Nothing but such a Remove loses a PID, and no step brings a lost one back. |
| `Manager1Invariant.LeakIsForever` | internal/infrastructure/processmgr/process_manager.go:234-263 | A lost PID stays lost in every run. |
| `Manager1Invariant.AddIssuesFreshPid` | internal/infrastructure/processmgr/process_manager.go:85-104 | A PID handed out has no process, reaped or not, no pending launch and no unit. |
| `Manager1Invariant.ExitIsConfined` | internal/infrastructure/processmgr/process_manager.go:234-263 | The exit of a superseded process frees its PID and changes nothing else; that of a current one schedules exactly its restart. |
| `Manager1Invariant.NoLostWakeup` | internal/infrastructure/processmgr/process_manager.go:148-183 | As for the second manager. |
| `Manager1Invariant.NoSecondProcess` | internal/infrastructure/processmgr/process_manager.go:202-263 | No process is started under a PID that still has one, or without a spec. |
| `Manager1Laws.ScheduleChanges` | internal/infrastructure/processmgr/process_manager.go:85-283 | How every step of the first manager changes the schedule, and for when; nothing is launched before its time or ahead of something sooner. |
| `Manager1Laws.FailedLaunchIsConfined` | internal/infrastructure/processmgr/process_manager.go:202-232 | A failed launch schedules the PID after the cooldown of its unit and changes nothing else. |
| `Manager1Laws.ProcessChanges` | internal/infrastructure/processmgr/process_manager.go:202-263 | A process is started, with the spec of its unit, by a launch that is due and succeeds and by nothing else. |
| `Manager1Laws.TableChanges` | internal/infrastructure/processmgr/process_manager.go:85-136 | Units, PIDs and specs change by Add and Remove alone, as for the second manager. |
| `Manager1Laws.ParksIffNothingDue` | internal/infrastructure/processmgr/process_manager.go:148-183 | A turn of the loop launches exactly when something is due, and otherwise waits for the soonest time or for something to be scheduled. |
| `Manager1Laws.FaultChanges` | internal/infrastructure/processmgr/pid_allocator.go:53-56 | In every run the one panic is Add of a new unit when all of 1..32768 are taken. |
| `Ledgers.RegisterRecounted` | internal/service/b2b_client.go:167-195 | Registering a channel that is being stored keeps every counter, the channel-to-client map and the duplicate-free channel lists equal to a recount over the stored channels, whether or not the manager takes the channel; no manager runs a channel that is not its own. |
| `Ledgers.RegisterMissing` | internal/service/b2b_client.go:188-194 | The channels that a manager was to run and does not grow by the new channel exactly when its manager refuses it. |
| `Ledgers.ExactIffNothingMissing` | internal/service/b2b_client.go:188-194 | The units of every manager equal a recount over the stored channels exactly when no channel is missing in that sense. |
| `Ledgers.UsesArePlaces` | internal/service/b2b_client.go:182-186 | Counting the outputs one by one gives the number of enabled outputs with the ref. |
| `Ledgers.UnregisterRecounted` | internal/service/b2b_client.go:197-216 | Unregistering gives the recount over the channels that are left. |
| `Ledgers.ClientDroppedRecounted` | internal/service/b2b_client.go:143-165 | Dropping a client keeps the recount exactly when no channel is attached to it (or it was not there), which is what the guard of Delete asks. |
| `Ledgers.ClientAddedRecounted` | internal/service/b2b_client.go:101-105 | A new client's empty tables are a recount. |
| `Ledgers.RemoveFirstLists` | internal/service/b2b_client.go:365-374 | On a duplicate-free list the helper remove takes out exactly the target. |
| `B2BClients.B2BClientService.RegisterChannel` | internal/service/b2b_client.go:167-195 | The map, the list and both kinds of counters (the output counters one output at a time) change by exactly what the channel contributes, before the manager is asked; the unit is there afterwards unless the manager has no PID for it, which is the panic. |
| `B2BClients.B2BClientService.UnregisterChannel` | internal/service/b2b_client.go:197-216 | The same changes undone. |
| `B2BClients.B2BClientService.Remove` | internal/service/b2b_client.go:367-374 | Removes the first occurrence and keeps the order of the rest. |
| `B2BClients.B2BClientService.Create` | internal/service/b2b_client.go:81-108 | A new client has an unused id, empty tables and a manager with the limits it was given; a failed call changes nothing; every recount that held still holds. |
| `B2BClients.B2BClientService.Update` | internal/service/b2b_client.go:110-140 | The four outcomes and their exact post-states: unknown client, record not written (nothing changed), updated, and a manager that panics on a negative limit that is news to one of its pools after record, memory and part of its limits have changed. |
| `B2BClients.B2BClientService.Delete` | internal/service/b2b_client.go:143-165 | Refused for unknown clients and for clients with channels; otherwise the client and its manager are gone; every recount that held still holds. |
| `B2BClients.B2BClientService.GetOne` | internal/service/b2b_client.go:218-227 | A known client's view: quotas beside the counters, the channel list, and the online limits beside what the manager answers. |
| `B2BClients.ViewShowsRecount` | internal/service/b2b_client.go:355-363 | With the counters right, such a view shows the recounted usage next to each quota. |
| `B2BClients.B2BClientService.Reconcile` | internal/service/b2b_client.go:272-298 | After start-up every stored client is known with nothing counted and a manager with its stored limits. |
| `Quotas.EnforceQuotaOnCreate` | internal/service/channel.go:311-319 | Passes exactly when the client has room for one more enabled channel (if the channel is enabled) and for each enabled output with a quota; a refusal names a resource that is used up. |
| `Quotas.EnforceQuotaOnUpdate` | internal/service/channel.go:321-351 | Passes exactly when there is room for what the update newly enables. |
| `Quotas.NewKeepsQuotas` | internal/service/channel.go:311-319 | A passed check on a new channel with unique refs means that storing it raises no usage, recounted, above its quota. |
| `Quotas.ChangeKeepsQuotas` | internal/service/channel.go:321-351 | The same for a channel that stays with its client. |
| `Quotas.MoveKeepsQuotas` | internal/service/channel.go:121-137 | The same for a channel that moves from one client, or from none, to another. |
| `Quotas.DeleteKeepsQuotas` | internal/service/channel.go:214-238 | Deleting a channel raises nobody's usage. |
| `Quotas.LastQuotaCounts` | internal/domain/b2b-client/helpers.go:3-9 | Of several quotas for one ref the last counts; without one there is no limit. |
| `Quotas.OverQuotaIff` | internal/service/channel.go:273-351 | With unique refs, a channel asks for more than there is room for (one more enabled channel, or one more enabled output of a ref, than the quota, in what it newly enables) exactly when storing it would take a recounted usage that it raises above its quota. |
| `Quotas.ReleasedKeepsQuotas` | internal/service/channel.go:145-151 | Taking a channel from its client raises nobody's usage. |
| `Quotas.NewcomerWithin` | internal/service/b2b_client.go:96-107 | A new client owns nothing, so it is within whatever quotas it was given. |
| `Quotas.RepeatedRefsOverrun` | internal/service/channel.go:290-309 | With a repeated ref the check can pass and the quota be overrun, so the uniqueness that Validate enforces is needed. |
| `ChannelServices.AdmittedKeepsQuotas` | internal/service/channel.go:121-137 | Whatever kind of call it was, an admitted channel with unique refs raises nobody's usage above a quota. |
| `ChannelServices.RefusedIffOver` | internal/service/channel.go:68-137 | A call for a known client is refused exactly when, on the recount, it asks for more than there is room for: a channel that just fits is admitted. |
| `ChannelServices.RefusedIffQuotaBroken` | internal/service/channel.go:68-137 | In other words, with unique refs: exactly when storing the channel would take a usage that it raises above its quota. |
| `ChannelServices.ChannelService.Create` | internal/service/channel.go:68-104 | What is answered in every case of client, quotas, store and manager; a stored channel has an unused id; no usage is raised above its quota; a rejected call changes no record, object, counter or index; when the manager panics the channel is stored and counted all the same and is the one more that is not run; the recount holds. |
| `ChannelServices.ChannelService.Update` | internal/service/channel.go:106-163 | The same for an update, including a move between clients, checked against the right client's view; an update that the manager accepts ends an earlier refusal. |
| `ChannelServices.ChannelService.Delete` | internal/service/channel.go:214-238 | The channel is gone from every table, or nothing changed; the recount holds. |
| `ChannelServices.ChannelService.Reconcile` | internal/service/channel.go:240-271 | Start-up over the stored channels makes every counter and index a recount and runs every channel that is to run; it fails, apart from the store, exactly when a manager refuses one. |
| `ServiceRuns.Restartable` | internal/service/channel.go:260-263 | Whatever the services have stored, each stored channel's client is stored too, so start-up never registers a channel with an unknown client. |
| `ManagerAnswers.AddAnswers` | internal/infrastructure/processmgr/process_manager2.go:117-156 | The services' picture of the second manager as a set of units: Add registers the unit exactly when it was known or the allocator has a PID; Remove takes it out. |
| `ManagerAnswers.FirstAddAnswers` | internal/infrastructure/processmgr/process_manager.go:85-136 | The same for the first manager. |
| `ManagerAnswers.UpdateLimitsAnswers` | internal/infrastructure/processmgr/process_manager2.go:162-207 | The capacities left by UpdateLimits, and whether it panics, are as the client service has them, whatever is running and in whatever order owners are listed. |
| `ServiceRuns.StartAgain` | internal/service/channel.go:40-66 | Restarting over the records, with the stores' index and sequence rebuilt from what a scan yields, brings back the same channels and clients, and runs everything that is to run; it fails, apart from the stores, only when a manager refuses a channel. |
| `ServiceRuns.Perform` | internal/service/channel.go:68-271 | An event tells what each call did to the stored channels and whether the manager refused; the channels not run change with it. No call of any kind whose channel has unique refs, and no restart, raises a client's recounted usage above its quota; if all clients were within their quotas they still are, unless the call gave a client new quotas. |
| `ServiceRuns.RefusedIff` | internal/service/channel.go:100-102 | A channel counts as refused at the end of a log exactly when some registration of it was refused and nothing has settled it since: no later store or removal of the channel, no start-up. |
| `ServiceRuns.Serve` | internal/service/channel.go:68-271 | After any sequence of channel calls, client calls, store failures, manager panics and restarts the counters and ownership indices equal a recount; the managers' units, with the ownerless ones, do so exactly when no registration of a still-stored channel was refused since the last start-up; a run of validated calls that changes no quotas never takes a client beyond them. |
| `Channels.OutputsByRef` | internal/domain/channel/model.go:81-90 | The by-ref table holds, for every ref, its last output and that output's position. |
| `Channels.FindRepeatedRef` | internal/domain/channel/model.go:142-156 | Accepts exactly the outputs with unique refs; a refusal names the first output that repeats a ref and the earlier one. |
| `AvUrl.JoinSplit` | pkg/avurl/av_url_split.go:13-115 | Joining what was split gives back every string, across all early returns, repeated at-signs, brackets and junk. |
| `AvUrlGrammar.SplitWellFormed` | pkg/avurl/av_url_split.go:13-115 | The parts of every URL with a colon are well-formed: no '/', '?' or '#' in userinfo, host, port and junk, a path that is empty or begins with one of them, no '@' behind the userinfo, at most two slashes, a host in brackets or without a colon. |
| `AvUrlGrammar.SplitJoin` | pkg/avurl/av_url_join.go:14-39 | Well-formed parts are what their text is split into. |
| `AvUrlGrammar.SplitIsUnique` | pkg/avurl/av_url_split.go:13-115 | A URL with a colon is split into the one well-formed set of parts that it is the text of. |
| `AvUrlGrammar.UsualUrl` | pkg/avurl/av_url_split.go:13-115 | schema://host:port followed by a path, a query or a fragment is split into just these. |
| `AvUrlParser.AvurlSplit` | pkg/avurl/av_url_split.go:13-115 | The cursor-based splitter computes the split function. |
| `AvUrlParser.ScanUserinfo` | pkg/avurl/av_url_split.go:65-83 | The loop over at-signs ends behind the last one; the userinfo is everything before it. |
| `AvUrlParser.RawParse` | pkg/avurl/av_url.go:58-73 | Never fails; the unable-to-parse branch is unreachable. |
| `AvUrlParser.Parse` | pkg/avurl/av_url.go:21-54 | Says for each of the five outcomes exactly when it is given: accepted, junk, an at-sign, a bad host, a bad port, in this order of precedence; never unable to parse. |
| `AvUrlParser.EmbeddUserinfo` | pkg/avurl/av_url.go:75-93 | Computes the embedding function; no URL in, none out. |
| `UserinfoEmbedding.EmbedChangesUserinfoOnly` | pkg/avurl/av_url.go:75-93 | Splitting the result for any URL containing ':' gives back schema, slash count, host, brackets, port, junk and path unchanged, and the escaped credentials as userinfo. |
| `UserinfoEmbedding.EmbedNeedsSchema` | pkg/avurl/av_url.go:75-93 | The condition is exact: without ':' in the URL this always fails. |
| `UserinfoEmbedding.EmbedNobodyDropsUserinfo` | pkg/avurl/av_url.go:82-92 | Without a username the result splits into the same parts with the userinfo empty, for every string, with or without a password. |
| `UserinfoEmbedding.FirstColonSeparates` | pkg/avurl/av_url.go:82-90 | The first ':' of the userinfo separates the escaped username from the escaped password. |
| `UserinfoEmbedding.DecodeEscapeIff` | pkg/avurl/av_url.go:95-114 | Percent-decoding recovers a username or password exactly when it contained no percent-encoded byte of its own. |
| `UserinfoEmbedding.Escape` | pkg/avurl/av_url.go:95-114 | The escaped text contains none of '/', '?', '#', and for usernames no ':'. |
| `UserinfoEmbedding.EscapesCharacters` | pkg/avurl/av_url.go:95-114 | '/', '?' and '#' become %2F, %3F and %23, ':' becomes %3A in usernames only, and every other character stays. |
| `RemuxCmd.LexCommandLine` | pkg/remuxcmd/builder.go:151-157 | A shell reads the one-line form back as exactly the argument vector, including empty arguments and arguments full of quotes (POSIX.1-2017, Shell Command Language, sections 2.2.1 and 2.2.2). |
| `RemuxCmd.LexQuotedBody` | pkg/remuxcmd/builder.go:183-188 | Reading a quoted body and its closing quote adds exactly the original text to the current field. |
| `RemuxCmd.QuotedIs` | pkg/remuxcmd/builder.go:183-188 | Text without quotes stays as it is between single quotes; each quote becomes four characters. |
| `RemuxCmd.LinesJoin` | pkg/remuxcmd/builder.go:151-157 | The line of two argument lists is their lines with one space between. |
| `RemuxCmd.Builder.BuildString` | pkg/remuxcmd/builder.go:151-157 | The loop builds that line for the builder's own arguments. |
| `RemuxCmd.Builder.BuildArgv` | pkg/remuxcmd/builder.go:140-144 | The vector starts with the binary name. |
| `RemuxCmd.Builder.WithOutputs` | pkg/remuxcmd/from_channel.go:48-63 | The outputs section: one section for each enabled output, in order, optional texts only when present and not empty, numbers and booleans always. |
| `RemuxCmd.DisabledLeaveNoTrace` | pkg/remuxcmd/from_channel.go:48-51 | A disabled output leaves no trace in the command. |
| `RemuxCmd.DecimalReadsBack` | pkg/remuxcmd/from_channel.go:58 | The packet size is written in decimal digits without a leading zero. |
| `RemuxCmd.SectionSays` | pkg/remuxcmd/from_channel.go:52-62 | What stands where in a section: the URL and the address when there are any, the packet size, and each of the three mappings behind its own flag. |
| `RemuxCmd.SectionReadBack` | pkg/remuxcmd/from_channel.go:52-62 | A section can be told from what follows it and says which URL, address, packet size and mappings it is for, even when these texts look like flags. |
| `RemuxCmd.SameLineIff` | pkg/remuxcmd/from_channel.go:48-63 | With the other arguments the same, two lists of outputs give the same command line exactly when their enabled outputs, in order, say the same. |
| `OrderedIndex.Search` | internal/infrastructure/objectstore/objectstore.go:103 | Binary search finds the first position whose id is not below the given one. |
| `OrderedIndex.InsertAtIs` | internal/infrastructure/objectstore/objectstore.go:105-113 | Append, overlapping shift and overwrite amount to an insertion. |
| `OrderedIndex.RemoveAtIs` | internal/infrastructure/objectstore/objectstore.go:145-151 | Overlapping shift and truncation amount to a removal. |
| `OrderedIndex.InsertedIndexed` | internal/infrastructure/objectstore/objectstore.go:117-120 | Renumbering only the shifted tail makes the positions the inverse of the ids again. |
| `OrderedIndex.RemovedIndexed` | internal/infrastructure/objectstore/objectstore.go:153-156 | The same after a removal. |
| `ObjectStores.ObjectStore.Upsert` | internal/infrastructure/objectstore/objectstore.go:82-121 | The store refines a map; ids stay strictly ascending, positions invert them and values stay aligned, on the overwrite, append and insert paths. |
| `ObjectStores.ObjectStore.Delete` | internal/infrastructure/objectstore/objectstore.go:132-157 | Removes exactly the id, or nothing. |
| `ObjectStores.ObjectStore.GetMany` | internal/infrastructure/objectstore/objectstore.go:180-194 | Values aligned with the ids asked for, and whether all were present. |
| `ObjectStores.ObjectStore.GetList` | internal/infrastructure/objectstore/objectstore.go:205-221 | The whole map in key order. |
| `DataStores.DataStore.Reconcile` | internal/infrastructure/datastore/datastore.go:420-490 | Start-up indexes exactly the stored ids in order and lifts the sequence to the highest of them, whatever was scanned besides. |
| `DataStores.DataStore.Create` | internal/infrastructure/datastore/datastore.go:132-149 | A new record gets an id above the sequence and never lands on an existing one; a failed command leaves records and index alone. |
| `DataStores.DataStore.Delete` | internal/infrastructure/datastore/datastore.go:180-205 | Record and index entry are gone, or nothing changed. |
| `DataStores.DataStore.GetOne` | internal/infrastructure/datastore/datastore.go:213-234 | An indexed id whose record vanished is dropped from the index and reported missing. |
| `DataStores.DataStore.GetMany` | internal/infrastructure/datastore/datastore.go:244-307 | Values aligned with the ids asked for; exactly the vanished ones among them leave the index. |
| `DataStores.DataStore.GetList` | internal/infrastructure/datastore/datastore.go:315-360 | All records in id order; afterwards the index is exactly the surviving ids. |
| `DataStores.DataStore.IndexInsert` | internal/infrastructure/datastore/datastore.go:373-395 | The id is indexed, order and positions are kept. |
| `DataStores.DataStore.IndexRemoveAt` | internal/infrastructure/datastore/datastore.go:397-412 | The id at that position is dropped, order and positions are kept. |
| `StoreRuns.PerformRead` | internal/infrastructure/datastore/datastore.go:213-360 | Reads change no record and not the counter; exactly what they looked for and found to be gone leaves the index. |
| `StoreRuns.NoIdTwice` | internal/infrastructure/datastore/datastore.go:132-149 | In any run an id handed out is above all handed out before it. |
| `StoreRuns.CreationIsFresh` | internal/infrastructure/datastore/datastore.go:132-149 | In any run a creation lands on no record and on no id still indexed, even if records vanished and the index was rebuilt in between. |
| `StoreRuns.CreatedStays` | internal/infrastructure/datastore/datastore.go:132-205 | A created record stays as it was created until an update, deletion or loss of that very id; later creations, other calls and restarts never disturb it. |
| `StoreRuns.RecordsAreReplay` | internal/infrastructure/datastore/datastore.go:132-205 | In any run the records are the replay of the changes that its calls amount to. |
| `StoreRuns.Serve` | internal/infrastructure/datastore/datastore.go:132-490 | The store, through calls, failing commands, records that vanish and restarts, goes through exactly the snapshots of records, indexed ids and counter that the calls prescribe one after the other; so the ids handed out strictly ascend, no creation overwrites a record, and the records are the replay of the changes. |
| `OutputsPatch.MergeOutputs` | internal/http/dto/channel_modify.go:112-133 | The result, and whether there is one, are the same for every iteration order of the patch, also when the patch renames refs; an error is one that some entry of the patch deserves. |
| `OutputsPatch.AcceptedIff` | internal/http/dto/channel_modify.go:112-133 | A patch is accepted exactly when each entry is for a ref that is there, is not null, has no null in the four fields that cannot be, and from anyone but an administrator sets the enabled flag only, on one of three refs. |
| `OutputsPatch.PatchedFields` | internal/http/dto/channel_modify.go:316-394 | After an accepted patch the last output of each patched ref has every field as given, nothing where url or localaddr is null, and as before where left out; every other output is as it was. |
| `OutputsPatch.Untouched` | internal/http/dto/channel_modify.go:115-132 | An entry still finds the output it was looked up for as that output was before the call, whatever the entries before it renamed. |
| `OutputsPatch.ClientChangesEnabledOnly` | internal/http/dto/channel_modify.go:126-129 | A patch by anyone but an administrator changes nothing but enabled flags, and those only of the three refs open to clients. |

## Left out

- `internal/infrastructure/processmgr/process.go`: pipes, signals, grace timers and `exec.Cmd` are the environment of the machine.
- `log_buffer.go`, `log_manager.go`: a ring buffer and a lazy map, which would only add easy members.
- Liveness: that a due unit is eventually launched depends on goroutine scheduling and on processes finishing.
- `slotPool.acquire`: it has no caller.
- `ProcessManagers2.ProcessManager2.SuperviseInstance`: states the undisturbed life of a supervisor; disturbed ones are runs of the machine.
- `ServiceRuns.Serve`: ends with a start-up that fails, where the server does not come up; the records it leaves are those before.
- Corrupted records: JSON decoding of a stored channel or client is taken to succeed, and the process argument vector of a channel is not carried through the services.
- Which PIDs a manager holds is not carried through the services: `addOk` is free, where the source ties it to the manager's allocator.
- Bearer tokens, the token index, summaries and local-address caches: lookups around I/O and randomness.
- `ServiceRuns.Serve`: takes it that no record vanishes behind the services' back; what the stores do then is in `StoreRuns`.
- Races between deleting a client and creating a channel for it: service calls are atomic here.
- The `Interactive` flag: it is set on registration and not persisted.
- `AvUrlParser.Parse`: the host and port validators (pkg/hostutil, `isPort`) are parameters.
- `ProcessManagers2.ProcessManager2.LaunchProcessUnsafe`: the command line a process is started with is the one in the spec table; the supervisor keeps the unit only.
- The global and input flags of `FromChannel`, and systemd's own quoting rules.
- `UserinfoEmbedding.DecodeEscapeIff`: the decoder is the one of section 2.1 of RFC 3986; the source has none.
- `OutputsPatch.MergeOutputs`: which of several errors is reported depends on the iteration order and is not stated; the fields already written when a patch is refused are not kept, as the caller patches a copy and drops it.
- The rest of the channel patch (input, name, the array form of outputs), `crossDependencyCheck`, `DeepClone`, views and DTO mapping: field-by-field copying.
- Redis, JSON encoding, logging, gin handlers and middleware, sessions: I/O and library plumbing.
