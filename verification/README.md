# MLQFS scheduler model

A Dafny model of the tick-driven three-level feedback scheduler in `mlqfs/mlqfs.c`.

The scheduler keeps four priority-ordered queues:

- `arrival`: processes not yet arrived, keyed by arrival time;
- `ready`: keyed by level, 0 being the highest;
- `io`: blocked processes, keyed by the tick their wait ends;
- `logs`: terminated processes, keyed by lifetime CPU usage.

It also keeps an idle-tick counter for the null process (pid 0) and a clock.

Each turn of the main loop runs these steps in order:

1. `check_top_process_quanta`: charges a quantum and demotes on expiry.
2. `queue_new_processes`: admits arrivals and returns from I/O.
3. `schedule_processes`: terminates, moves to the next behaviour, blocks for I/O, or picks the process that runs.
4. `run_top_process`: charges one tick.
5. Advances the clock.

The model states each step as a pure function over an immutable `State`, and the loader as a method over already-parsed records.

Files, one module each:

- `records.dfy` (`Records`): the `Behaviour` and `Process` records and `process_compare`.
- `prioqueue.dfy` (`PrioQueue`): the priority queue every scheduler queue uses. It is an abstract sorted sequence of (process, key) entries with these rules:
  - ascending by key;
  - first in, first out among equal keys;
  - an insertion whose pid is already queued is a no-op.
- `scheduler.dfy` (`Scheduler`): the state, the level transitions, the moves between queues and the four steps of a tick.
- `invariants.dfy` (`Invariants`): the invariant every step keeps. It has four parts:
  - levels in 0..2;
  - every process still holds a behaviour;
  - sorted queues;
  - every pid non-zero and in exactly one place.

  It also shows that no step except `RunTopProcess` creates or destroys CPU time.
- `loader.dfy` (`Loader`): the grouping of input records into processes.
  - `Group` is a reference definition of that grouping.
  - `LoadProcessDescriptions` is the record loop of mlqfs.c, proved equal to filing `Group`'s result.
- `simulation.dfy` (`Simulation`): one tick, the shutdown rule, and the whole run. `Simulate` loops over at most `fuel` ticks.

The main results:

- A tick keeps the invariant and the set of processes, and charges exactly one tick (`TickPreserves`). So the CPU time of all processes plus the null process equals the clock at every loop head (`TickConserves`).
- A finished run reports every loaded process exactly once, plus the null process at most once. The report is in ascending order of usage, and the usages add up to every tick up to and including the printed shutdown time (`Simulate`).

How mlqfs.c behaves in the cases worth knowing:

- **Quantum counting.** `run_top_process` charges only `units` and `total_cpu_usage` (mlqfs/mlqfs.c:327-345); its doc comment in mlqfs/mlqfs.h:84-89 also lists `quanta`. The quantum is counted and checked by `check_top_process_quanta` at the start of the next tick (mlqfs/mlqfs.c:348-366).
  - A halted process is re-queued and scheduling continues in the same tick.
  - The halted process may still be at the front and run.
- **Arrival time.** Every record assigns `arrival_time` (mlqfs/mlqfs.c:143), so a process carries the arrival time of the last record of its run (`GroupArrival`).
- **Moving to the next behaviour** sets `progress` to 0 and leaves `units` as it is (mlqfs/mlqfs.c:293-297).
- **Termination** needs exactly one behaviour left, `progress == repeats` and `units >= cpu_time` (mlqfs/mlqfs.c:286).
  - `repeats` therefore counts I/O cycles, and one more CPU burst follows them.
  - For the single record `0 1 4 0 1`, pid 1 gets 8 ticks and the null process 2 idle ticks; the printed shutdown time is 9.
- **Return from I/O** resets no counter. `units` and `quanta` are zeroed when the process is sent to I/O (mlqfs/mlqfs.c:221-223).
- **Pid 0 in the input** collides with the null process. The shutdown insertion of the null process's record (mlqfs/mlqfs.c:75-78) is then rejected as a duplicate, dropping its idle ticks. The run theorem therefore assumes no record uses pid 0.
- **Repeated pids.** Two non-adjacent runs of records with the same pid become two processes with one pid. The duplicate check of the arrival queue (mlqfs/mlqfs.c:36-44, 138) drops the second (`LoadedComplete` assumes this does not happen).
- **Empty input** files one pid-0 process with no behaviours (mlqfs/mlqfs.c:130, 148), and `schedule_processes` then reads a behaviour from its empty list (mlqfs/mlqfs.c:282). `Simulate` requires a non-empty input; the loader itself models the empty case.

## Model

| member | source | states |
|---|---|---|
| Records.InitProcess | mlqfs/mlqfs.c:89-101 | A fresh process record: pid 0, no behaviours, level cache and arrival time 0, and every counter 0, so it has charged no CPU time |
| Records.ProcessCompare | mlqfs/mlqfs.c:45-49 | Process identity is the pid: the result is 0 exactly when the two pids agree, and 1 otherwise |
| PrioQueue.Contains | mlqfs/mlqfs.c:36-44 | The duplicate test of every queue holds exactly when a queued process has the same pid |
| PrioQueue.Insert | mlqfs/mlqfs.c:36-44 | Inserting a pid that is already queued changes nothing. Otherwise the queue gains exactly the new entry and loses none |
| PrioQueue.InsertPlacement | mlqfs/mlqfs.c:230-236 | A fresh entry goes behind every entry whose key is at most its own ("end of the queue" of its level) and ahead of every larger key; the other entries keep their order |
| PrioQueue.InsertKeepsSorted | mlqfs/mlqfs.c:169-179 | Insertion keeps a queue in ascending key order, which the due-time tests on the queue fronts rely on |
| PrioQueue.InsertFresh | mlqfs/mlqfs.c:36-44 | Inserting a pid that is not queued adds that pid exactly once, together with its CPU time |
| PrioQueue.InsertKeepsDistinct | mlqfs/mlqfs.c:36-44 | Insertion never creates a second entry with the same pid |
| PrioQueue.UpdateFrontFacts | mlqfs/mlqfs.c:336-343 | Replacing the front by a record of the same process keeps the pids and the order, and changes the CPU total by exactly the record's change |
| Scheduler.Demote | mlqfs/mlqfs.c:237-253 | On quantum expiry `quanta` and `promotion` are zeroed and `units`, `progress` and CPU usage are kept. The demotion counter either grows by one or, on reaching its level's ceiling, resets and moves the process one level down in priority (level number plus one), never past level 2 |
| Scheduler.BlockForIo | mlqfs/mlqfs.c:202-227 | On blocking for I/O, `progress` grows by one and `units`, `quanta` and `demotion` are zeroed. The promotion counter either grows by one or, on reaching its level's ceiling, resets and moves the process one level up in priority (level number minus one), never past level 0. The resulting level is cached |
| Scheduler.HaltProcess | mlqfs/mlqfs.c:237-253 | Halting touches only the ready queue: the front is re-queued as its demoted record, no other entry appears, and when the front's pid is not queued behind it the length is unchanged |
| Scheduler.HaltPlacement | mlqfs/mlqfs.c:230-253 | The halted process is queued behind every process already at its new level and ahead of every lower level |
| Invariants.HaltPreserves | mlqfs/mlqfs.c:237-253 | Halting keeps levels, behaviours, sortedness and unique pids, and moves no process and no CPU time |
| Scheduler.SendProcessToIo | mlqfs/mlqfs.c:202-227 | The ready front leaves the ready queue and enters the I/O queue as its blocked record, due at the clock plus its current behaviour's I/O time; nothing else changes |
| Invariants.SendIoPreserves | mlqfs/mlqfs.c:202-227 | Blocking for I/O keeps the invariant (cached levels in 0..2 included), and moves no process and no CPU time |
| Scheduler.TerminateProcess | mlqfs/mlqfs.c:261-267 | The ready front leaves the ready queue and is logged under its lifetime CPU usage with its behaviours released, unless its pid is already logged. No other log entry appears or disappears, and no other queue changes |
| Invariants.TerminatePreserves | mlqfs/mlqfs.c:261-267 | Termination keeps the invariant and moves no process and no CPU time |
| Simulation.TerminateLogsKeyed | mlqfs/mlqfs.c:265 | Every logged process is keyed by its lifetime CPU usage |
| Scheduler.CheckTopProcessQuanta | mlqfs/mlqfs.c:348-366 | With nothing ready the state is unchanged. Otherwise the front is charged one quantum and halted exactly when the count reaches its level's quantum ceiling |
| Invariants.CheckQuantaPreserves | mlqfs/mlqfs.c:348-366 | The quantum check keeps the invariant and moves no process and no CPU time |
| Scheduler.AdmitArrivals | mlqfs/mlqfs.c:169-174 | Admission touches only the arrival and ready queues; the arrival queue only shrinks, and afterwards its front is not due by the clock |
| Scheduler.AdmitArrivalsRest | mlqfs/mlqfs.c:169-174 | Admission removes exactly the leading arrivals whose arrival time is at most the clock |
| Invariants.AdmittedAtTop | mlqfs/mlqfs.c:169-174 | Every admitted process is in the ready queue at the highest level |
| Scheduler.ReturnFromIo | mlqfs/mlqfs.c:176-182 | Return from I/O touches only the I/O and ready queues; the I/O queue only shrinks, and afterwards its front is not due by the clock |
| Scheduler.ReturnFromIoRest | mlqfs/mlqfs.c:176-182 | The I/O loop removes exactly the leading blocked processes whose wait ends by the clock |
| Invariants.ReturnedAtCache | mlqfs/mlqfs.c:176-182 | Every process back from I/O is in the ready queue at its cached level |
| Scheduler.QueueNewProcesses | mlqfs/mlqfs.c:160-191 | Queueing logs nothing, charges no idle tick and keeps the clock; neither waiting queue grows, and afterwards neither the arrival front nor the I/O front is due by the clock |
| Scheduler.QueueNewShape | mlqfs/mlqfs.c:160-182 | Admission and return keep ready levels and cached levels in 0..2 and leave no process without a behaviour |
| Invariants.QueueNewPlacement | mlqfs/mlqfs.c:160-182 | Afterwards every arrived process is ready at level 0, and every process whose wait has ended is ready at its cached level |
| Invariants.QueueNewProcessesPreserves | mlqfs/mlqfs.c:160-191 | Queueing keeps the invariant and loses or duplicates no process |
| Scheduler.Decide | mlqfs/mlqfs.c:284-315 | Each branch is taken only under its guard: terminate on the last behaviour with all cycles and the final burst done; move on when cycles are done and a behaviour follows; block once the burst is served. The process runs exactly when it is eligible |
| Scheduler.ScheduleProcesses | mlqfs/mlqfs.c:273-319 | The loop ends with an empty ready queue or an eligible front. Levels stay valid, no behaviour list empties, the log only grows, and arrivals and the clock are untouched |
| Scheduler.AdvanceBehaviour | mlqfs/mlqfs.c:293-297 | The completed behaviour is dropped and the next starts with `progress` 0; `units`, the level counters, the cached level and the CPU usage carry over |
| Invariants.AdvancePreserves | mlqfs/mlqfs.c:291-297 | Dropping a completed behaviour keeps the invariant and moves no process and no CPU time |
| Invariants.SchedulePreserves | mlqfs/mlqfs.c:273-319 | Scheduling keeps the invariant and moves no process and no CPU time |
| Simulation.ScheduleLogsKeyed | mlqfs/mlqfs.c:273-319 | Scheduling logs every terminated process under its CPU usage |
| Scheduler.RunTopProcess | mlqfs/mlqfs.c:327-345 | Exactly one tick is charged: to the null process when nothing is ready, otherwise to the front's `units` and CPU usage, with nothing else changed |
| Invariants.RunPreserves | mlqfs/mlqfs.c:327-345 | Running keeps the invariant and the processes |
| Simulation.IsActive | mlqfs/mlqfs.c:110-112 | The scheduler is idle exactly when every process it holds has terminated: the pids held are exactly the logged ones |
| Simulation.Tick | mlqfs/mlqfs.c:410-416 | A tick keeps levels valid and behaviours present, and advances the clock by one |
| Simulation.TickPreserves | mlqfs/mlqfs.c:410-416 | A tick keeps the invariant and every process, and charges exactly one tick of CPU time |
| Simulation.TickConserves | mlqfs/mlqfs.c:410-416 | Time conservation: if the CPU time of all processes plus the null process equals the clock, it still does after a tick |
| Simulation.TickAdmits | mlqfs/mlqfs.c:410-416 | After a tick no process whose arrival time has come is still waiting to arrive |
| Simulation.TickLogsKeyed | mlqfs/mlqfs.c:410-416 | A tick keeps every logged process keyed by its CPU usage |
| Simulation.ShutdownScheduler | mlqfs/mlqfs.c:70-81 | The null process joins the log, keyed by its idle ticks, only if it ran at least once; nothing else joins |
| Simulation.ShutdownBag | mlqfs/mlqfs.c:75-78 | The report holds the logged processes plus the null process when it ran, and their CPU total |
| Simulation.ShutdownOrder | mlqfs/mlqfs.c:372-385 | The report is walked in ascending order of CPU usage |
| Simulation.ShutdownAccounts | mlqfs/mlqfs.c:70-81 | At shutdown every process appears once, the null process included when it ran, in ascending usage. The usages add up to the clock |
| Simulation.ShutdownTime | mlqfs/mlqfs.c:417 | The printed shutdown time is one less than the clock, wrapping to 4294967295 on an unsigned 32-bit counter when no tick ran |
| Simulation.InitialFacts | mlqfs/mlqfs.c:406-409 | The initial state has a non-empty arrival queue and valid levels. Without pid 0 in the input it satisfies the invariant, has charged no time and has an empty log |
| Simulation.Simulate | mlqfs/mlqfs.c:406-421 | A run that falls idle reports every loaded process exactly once, plus the null process at most once, in ascending order of usage. The usages sum to the shutdown time plus one |
| Loader.Group | mlqfs/mlqfs.c:137-144 | Reference grouping: no more processes than records, none exactly when there are no records, and the last process has the pid and arrival time of the last record |
| Loader.GroupFlatten | mlqfs/mlqfs.c:134-146 | Grouping loses, adds and reorders no behaviour, and each behaviour stays with its record's pid |
| Loader.GroupArrival | mlqfs/mlqfs.c:142-143 | Every process carries the arrival time of the last record of its run |
| Loader.GroupSeparated | mlqfs/mlqfs.c:137-140 | One process per maximal run: neighbouring processes have different pids |
| Loader.GroupFresh | mlqfs/mlqfs.c:137-145 | Every grouped process has all counters zero and at least one behaviour |
| Loader.InsertAllComplete | mlqfs/mlqfs.c:138-148 | With pairwise different pids, every process is filed once, keyed by its arrival time |
| Loader.LoadProcessDescriptions | mlqfs/mlqfs.c:124-149 | The record loop files exactly the grouped processes. Without records it files one empty pid-0 process at time 0 |
| Loader.LoadedQueue | mlqfs/mlqfs.c:124-149 | The arrival queue is sorted by arrival time and holds each pid at most once. Every entry is a fresh process keyed by its arrival time and carrying the pid of some record |
| Loader.LoadedComplete | mlqfs/mlqfs.c:137-148 | When no pid returns after a different one, every run of records is filed as its own process |

## Left out

- Event output: every `fprintf` line and the final text of `print_report`. The report is returned as the log queue it walks.
- The `running` global and the preemption-log block of `queue_new_processes` (mlqfs/mlqfs.c:161-167, 184-190, 308-313). They only decide which lines are printed.
- The priority-queue library is not part of this model. `init_queue`, `destroy_queue`, sizes, memory and by-value copies are replaced by the abstract sorted-sequence queue.
- `fscanf` parsing and file or stream selection in `main`. The loader takes already-parsed records, and malformed or truncated input is not modelled.
- Unsigned 32-bit wrap-around of the clock and of the counters. All are unbounded naturals, except for the printed shutdown time.
- Simulate: termination of the whole run is not proved. The loop is bounded by `fuel`, and its theorem speaks only of runs that fall idle within it.
- Simulate: the run theorem requires a non-empty input whose records never use pid 0. Without these mlqfs.c reads a behaviour from an empty list, or drops the null process's idle time.
- Process uniqueness: the step functions do not demand unique pids, as mlqfs.c does not. Conservation is proved under the invariant that every pid is in exactly one place.
