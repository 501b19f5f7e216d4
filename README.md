# CPU scheduling simulators, modelled and verified in Dafny

CPUScheduler's engine is three simulators: round robin, preemptive priority
and a multi-level feedback queue (MLFQ). Each one takes a list of processes
`{pid, arrival, burst, priority}` and runs an integer clock. It keeps runtime
copies of the processes, with `remainingBurst`, `firstResponse` and
`completionTime`, and appends `{pid, start, end}` slices to a Gantt chart
until no process has work left. Then it derives turnaround, waiting and
response times and averaged metrics.

This project models the three simulators in their own imperative form:

- The runtime copies are an `array<RuntimeProcess>`, updated in place.
- The ready queues are `seq<nat>` values of process indexes, reassigned on
  every push and shift.
- The loop is a `while` over the source's guard.

Each simulator method is proved equal to a functional reference: a `Step`
function for one loop iteration, and `Run`, which iterates `Step` until no
process is pending. The properties are proved as lemmas about `Step` and
`Run`.

Files:

- `scheduling.dfy`, module `Scheduling`: the code all three simulators share.
  - The process and runtime-copy records, the Gantt slice and the clock.
  - One dispatch, `RunFor` and `Execute`, and the array method `RunSlice` that performs it.
  - One idle tick, `Idle`.
  - The bookkeeping invariant `Accounting`, which every step keeps:
    - the work in the chart plus the remaining burst equals the burst;
    - the first response is the start of the process's first slice, and no earlier than the arrival;
    - the completion time is set exactly when nothing remains, and it is the end of the process's last slice;
    - slices are in time order and do not overlap.
  - The termination measure: `Backlog`, the total remaining burst, then `Gap`, the ticks to the last arrival.
- `admission.dfy`, module `Admission`: the admission pass that opens every iteration. It walks the processes in input order and appends each one that has arrived, has work left and is not queued yet. It has a reference definition (`Arrivals`) and an array method (`AdmissionPass`).
- `results.dfy`, module `Results`: the completed records and the metrics object.
- `round_robin.dfy`, `preemptive_priority.dfy`, `mlfq.dfy`: one module per simulator.

Behaviours of the source that the model keeps:

- Round robin pushes a preempted process back on the queue before the next
  admission pass. It is therefore ahead of every process that arrived during
  its slice.
  - Take P1 (arrival 0, burst 5) and P2 (arrival 1, burst 3) with quantum 2. Worked by hand from the code, the timeline is P1 [0,2], P1 [2,4], P2 [4,6], P1 [6,7], P2 [7,8].
  - P2 does not run right after P1's first quantum: at time 2, P1 is pushed back on the queue (`roundRobin.js:32-33`) before the next admission pass appends P2 (`roundRobin.js:12-16`), so P1 is the head again.
- `waitingTime` is computed as `p.turnaroundTime - p.burst` on the runtime
  copy, which has no `turnaroundTime` field. So it is NaN for every process,
  and so is `avgWaitingTime`. The model records it as `None`.
  `IntendedWaitingTime` (turnaround minus burst) is proved non-negative
  separately.
- MLFQ's admission pass only checks level 0 for membership.
  - Every arrived unfinished process is therefore re-admitted to level 0 on
    every pass, and the lower levels only collect stale entries.
  - Once level 0 is empty, nothing is eligible, so an entry popped from a
    lower level belongs to a finished process.
  - It gets an empty slice `[t, t]`, and its completion time, already set, is
    overwritten with the current time `t`.
  - The loop still terminates, because each such pop removes one stale entry.
  - `Mlfq.StalePop` states this, and `Mlfq.Valid` allows the stale entries.
- Preemptive priority re-sorts the ready list in place on every tick with
  JavaScript's stable sort. The order it leaves persists to the next tick.

## Model

| member | source | states |
|---|---|---|
| Scheduling.Start | src/algorithms/roundRobin.js:2-9 | The initial state is at clock 0 with an empty chart. Every runtime copy is its input process with its whole burst remaining, no first response and no completion time. The bookkeeping invariant holds and some process is pending. |
| Scheduling.Execute | src/algorithms/roundRobin.js:23-36 | A dispatch for `e` ticks leaves as many runtime copies, and takes exactly `e` off the dispatched process's remaining burst. |
| Scheduling.RunSlice | src/algorithms/roundRobin.js:24-30 | On the array: the first response is set if unset, the slice `[t, t+execTime]` is pushed, `execTime` comes off the remaining burst and the clock advances. The new array, clock and chart are `RunFor` of the old ones. |
| Scheduling.ExecuteSlice | src/algorithms/roundRobin.js:26-35 | A dispatch for `e` ticks advances the clock by `e`, appends the slice `[t, t+e]` of that process, leaves `remaining - e`, and records the new clock as the completion time when nothing remains. The dispatch is exactly `Dispatched`: its first response is recorded if unset, its completion time is kept while work remains, and every other runtime copy is unchanged. |
| Scheduling.ExecuteDispatched | src/algorithms/roundRobin.js:23-36 | A dispatch of `cur` for `e` ticks, field by field: the clock advances by `e`, one slice `[t, t+e]` of `cur` is appended, `cur` loses `e` of its remaining burst, gets its first response if it had none and gets the new clock as completion time exactly when nothing remains; every other runtime copy is unchanged. |
| Scheduling.ExecuteKeepsAccounting | src/algorithms/roundRobin.js:23-36 | A dispatch of an arrived process keeps the bookkeeping invariant: work plus remaining equals burst; the first response is the start of the first slice and no earlier than the arrival; completion is set exactly when nothing remains, is the end of the last slice and is no earlier than first response plus burst; slices are ordered and non-overlapping. The total remaining burst drops by exactly the slice length. |
| Scheduling.IdleKeepsAccounting | src/algorithms/roundRobin.js:18-21 | An idle tick, taken while some process is pending, keeps the bookkeeping invariant. |
| Scheduling.IdleNarrowsGap | src/algorithms/roundRobin.js:18-21 | While some process has yet to arrive, an idle tick brings the clock closer to the last arrival. This is the second component of the termination measure. |
| Scheduling.BacklogZero | src/algorithms/roundRobin.js:11 | The total remaining burst is 0 exactly when the loop guard `some(p => p.remainingBurst > 0)` is false. |
| Scheduling.BacklogUpdate | src/algorithms/roundRobin.js:29 | Changing one runtime copy changes the total remaining burst by exactly the change of that copy's remaining burst. |
| Scheduling.LatestArrivalKept | src/algorithms/mlfq.js:34-49 | The last arrival depends only on the arrival times, which no dispatch changes. |
| Scheduling.Finished | src/algorithms/roundRobin.js:11-43 | After the loop, every process's slices add up to its burst. Its first response and completion are set. The first response is the start of its first slice, no earlier than its arrival. The completion is the end of its last slice, no earlier than arrival plus burst. |
| Admission.Arrivals | src/algorithms/roundRobin.js:12-16 | Reference definition of what one pass appends: exactly the processes among the first `k` that are eligible (arrived, with work left) and not queued, in increasing input order. |
| Admission.AdmitUpTo | src/algorithms/roundRobin.js:12-16 | The pass over the first `k` processes, checking membership in the growing queue, equals the old queue followed by `Arrivals`. |
| Admission.Admit | src/algorithms/roundRobin.js:12-16 | A full pass keeps the old queue as a prefix. Afterwards a process is queued exactly when it was queued before or is eligible. |
| Admission.AdmissionPass | src/algorithms/preemptivePriority.js:12-16 | The `for ... of` loop over the array of runtime copies returns exactly `Admit` of the queue. |
| Admission.AdmitReady | src/algorithms/roundRobin.js:12-16 | After a pass over a queue of eligible, distinct processes, the queue holds every arrived unfinished process exactly once and nothing else, and the old queue is its prefix. |
| Admission.AdmitEmpty | src/algorithms/roundRobin.js:12-21 | The queue is empty after the pass exactly when no process has arrived with work left. |
| Admission.ReadyAfterRun | src/algorithms/roundRobin.js:32-33 | After the head runs and the clock advances, the rest of the queue is still ready. The head, if it has work left, is still ready at the tail or at the front. |
| Results.TotalsBounded | src/algorithms/roundRobin.js:46-48 | With every turnaround at least the burst (at least 1) and every response time non-negative, the turnaround total is at least the count, and the response and intended waiting totals are non-negative. |
| Results.AveragesBounded | src/algorithms/roundRobin.js:46-53 | With every turnaround at least the burst (at least 1), every response time non-negative and every waiting time NaN, the waiting total is NaN, the mean turnaround is at least 1 and the mean response time is non-negative. |
| Results.Report | src/algorithms/roundRobin.js:39-58 | The result object: one completed record per runtime copy, in input order, each carrying that copy and a NaN (`None`) waiting time; turnaround is completion minus arrival and response time is first response minus arrival; the average turnaround and response times are the totals over the process count, and throughput is the count over the final clock; the Gantt data as the simulation left it; `contextSwitches` its number of slices; and the `quantum` field exactly as given (present for round robin only). |
| Results.ReportRecords | src/algorithms/roundRobin.js:39-44 | Each completed record belongs to its input process. Its response time is the start of its first slice minus its arrival, and is non-negative. Its turnaround is the end of its last slice minus its arrival, and is at least its burst. Its slices add up to its burst. Its waiting time is NaN (`None`) and its intended waiting time is non-negative. |
| Results.ReportFinished | src/algorithms/roundRobin.js:39-58 | The report of a finished run: the `ReportRecords` facts, stated on the returned chart. The chart is ordered and its last slice ends at the final clock. `contextSwitches` is the number of slices and throughput is the process count over that end. The average waiting time is NaN. The average turnaround and response times are the means of the records' times; the first is at least 1 and the second is non-negative. |
| RoundRobin.Step | src/algorithms/roundRobin.js:12-36 | Reference definition of one iteration: admission, then an idle tick when the queue is empty, else one dispatch of the head for `min(remaining, quantum)` and its re-queue when work is left. It keeps the number of runtime copies and a queue of valid indexes; what it does is stated by `IdleIteration`, `Dispatch` and `StepKeepsValid`. |
| RoundRobin.StepKeepsValid | src/algorithms/roundRobin.js:11-37 | One iteration keeps the invariant: bookkeeping, a queue of distinct eligible processes, and every slice between 1 tick and one quantum. The total remaining burst shrinks, or stays while the clock nears the last arrival, so the loop terminates. |
| RoundRobin.RunFinishes | src/algorithms/roundRobin.js:11 | The loop ends in a state that keeps the invariant and in which no process has work left. |
| RoundRobin.RoundRobinResult | src/algorithms/roundRobin.js:39-58 | The result of `roundRobin`: for every process, response time is the start of its first slice minus its arrival and turnaround is the end of its last slice minus its arrival; turnaround is at least burst and response time non-negative. Slice lengths per process add up to its burst, and every slice runs at least 1 tick and at most the quantum. The chart is ordered, `contextSwitches` counts slices, throughput is count over the end of the last slice, waiting times are NaN, the average turnaround and response times are the means, and the `quantum` field is returned. |
| RoundRobin.IdleIteration | src/algorithms/roundRobin.js:18-21 | When the queue is empty after admission, the iteration only adds 1 to the clock: no slice, no change to any process. |
| RoundRobin.Dispatch | src/algorithms/roundRobin.js:23-36 | The head of the admitted queue runs from the current time for `min(remaining, quantum)`, which is at most the quantum. Its slice is appended and its remaining burst drops by that amount. With work left it goes to the tail of the queue; otherwise the new clock is its completion time and it leaves the queue. The dispatch is exactly `Dispatched`: its first response is recorded if unset, its completion time is kept while work remains, and every other runtime copy is unchanged. |
| RoundRobin.PreemptedAheadOfArrivals | src/algorithms/roundRobin.js:32-33 | A preempted process is the last entry of the queue before the next admission pass. Everything that pass appends comes after it, and none of it is that process again. |
| RoundRobin.RunKeepsAtMostOnce | src/algorithms/roundRobin.js:26-36 | With a quantum at least every burst, every process throughout the run either still has its whole burst and no slice, or has finished in exactly one slice. |
| RoundRobin.LargeQuantumIsFcfs | src/algorithms/roundRobin.js:26-36 | With a quantum at least every burst, every process gets exactly one slice, as in first-come first-served. |
| RoundRobin.RunHead | src/algorithms/roundRobin.js:23-36 | Shift, dispatch and re-queue or complete on the array: the new array, clock, chart and queue are those of one `Execute` of the head for `min(remaining, quantum)`. |
| RoundRobin.Iterate | src/algorithms/roundRobin.js:12-36 | One pass of the loop body on the array is exactly one `Step`. |
| RoundRobin.RoundRobin | src/algorithms/roundRobin.js:1-59 | The whole `roundRobin` function returns `RoundRobinSpec`, the report of `Run` from the initial state. |
| PreemptivePriority.Insert | src/algorithms/preemptivePriority.js:23 | Inserting an index into a list yields a list of one more entry whose multiset is the old one plus that index. |
| PreemptivePriority.SortByPriority | src/algorithms/preemptivePriority.js:23 | The sort returns a permutation of the ready list (same length, same multiset). |
| PreemptivePriority.InsertSorted | src/algorithms/preemptivePriority.js:23 | Inserting into a list sorted by priority keeps it sorted. |
| PreemptivePriority.SortSorted | src/algorithms/preemptivePriority.js:23 | The sorted list is in non-decreasing priority value (`a.priority - b.priority`). |
| PreemptivePriority.InsertWithKey | src/algorithms/preemptivePriority.js:23 | Insertion puts the new entry in front of every other entry of its priority, and leaves the entries of every other priority as they were. |
| PreemptivePriority.SortStable | src/algorithms/preemptivePriority.js:23 | The sort is stable: for every priority value, the entries of that priority keep their relative order. |
| PreemptivePriority.SortHead | src/algorithms/preemptivePriority.js:23-24 | The head of the sorted list is in the list, has the minimum priority value, and is the earliest entry of that priority in the unsorted list. |
| PreemptivePriority.SortEqualKeys | src/algorithms/preemptivePriority.js:23 | When all priorities are equal, the sort leaves the list unchanged. |
| PreemptivePriority.SortReady | src/algorithms/preemptivePriority.js:23 | Sorting a list of distinct eligible processes leaves a list of distinct eligible processes. |
| PreemptivePriority.Step | src/algorithms/preemptivePriority.js:12-34 | Reference definition of one iteration: admission, then an idle tick when the list is empty, else the stable sort by priority and one tick of the head, which is dropped when it completes. It keeps the number of runtime copies; what it does is stated by `StepUnfold`, `DispatchedHead`, `RunsMostUrgent` and `StepKeepsValid`. |
| PreemptivePriority.StepUnfold | src/algorithms/preemptivePriority.js:12-34 | The admitted list and its sort are ready lists. An iteration is an idle tick when the admitted list is empty; otherwise it is one tick of the sorted head, which is dropped only when nothing of it remains. |
| PreemptivePriority.DispatchedHead | src/algorithms/preemptivePriority.js:23-34 | A dispatch iteration appends one slice, of the sorted head, and takes one tick off that head's remaining burst. The sorted list is a ready list, and the new list is the sorted one, without its head exactly when nothing of the head remains. The tick is exactly `Dispatched` for one tick: the clock advances by 1, the first response is recorded if unset, and every other runtime copy is unchanged. |
| PreemptivePriority.IdleKeepsValid | src/algorithms/preemptivePriority.js:18-21 | An idle iteration keeps the invariant, changes no process and brings the clock closer to the last arrival. |
| PreemptivePriority.StepKeepsValid | src/algorithms/preemptivePriority.js:11-35 | One iteration keeps the invariant: bookkeeping, a ready list of distinct eligible processes, one-tick slices, and slices plus total remaining burst equal to the total burst. The measure decreases. |
| PreemptivePriority.RunFinishes | src/algorithms/preemptivePriority.js:11 | The loop ends in a state that keeps the invariant and in which no process has work left. |
| PreemptivePriority.BacklogIsTotalBurst | src/algorithms/preemptivePriority.js:5-9 | Before the first iteration, the total remaining burst is the sum of all bursts. |
| PreemptivePriority.PreemptivePriorityResult | src/algorithms/preemptivePriority.js:37-56 | The result of `preemptivePriority`: for every process, response time is the start of its first slice minus its arrival and turnaround is the end of its last slice minus its arrival; turnaround is at least burst and response time non-negative, and slice lengths per process add up to its burst. Every slice has `end = start + 1`, and `contextSwitches` equals the number of slices, which equals the sum of all bursts. The chart is ordered, throughput is count over the end of the last slice, waiting times are NaN, and the average turnaround and response times are the means. |
| PreemptivePriority.RunsMostUrgent | src/algorithms/preemptivePriority.js:12-24 | The process run in a dispatch iteration has arrived and has work left. Its priority value is at most that of every other such process, and it is the first entry of that priority in the admitted list. |
| PreemptivePriority.LeavesOnlyOnCompletion | src/algorithms/preemptivePriority.js:31-33 | No process joins the list during the tick. A process leaves the admitted list exactly when it is the one just run and nothing of it remains. |
| PreemptivePriority.HeadDropped | src/algorithms/preemptivePriority.js:32 | Shifting the head off a repeat-free permutation of a list drops exactly that entry. |
| PreemptivePriority.EqualPrioritiesKeepRunning | src/algorithms/preemptivePriority.js:23-32 | With all priorities equal, the head of the ready list runs next and stays at the head while it has work left. |
| PreemptivePriority.TickUninterrupted | src/algorithms/preemptivePriority.js:23-34 | A one-tick dispatch of the process that heads the ready list before the iteration (if it was nonempty) and after it (while it has work left) keeps each process uninterrupted. |
| PreemptivePriority.IdleUninterrupted | src/algorithms/preemptivePriority.js:18-21 | An idle iteration finds the ready list empty, so no process is started and unfinished; it keeps every process uninterrupted. |
| PreemptivePriority.DispatchUninterrupted | src/algorithms/preemptivePriority.js:12-34 | With all priorities equal, a dispatch iteration runs the old head of the ready list (the sort leaves the list unchanged) and keeps every process uninterrupted. |
| PreemptivePriority.SamePriorityStep | src/algorithms/preemptivePriority.js:11-35 | With all priorities equal, one iteration keeps every process uninterrupted: a started, unfinished process is the head of the ready list and has run every tick since its first response, and a completed one completed exactly its burst after its first response. |
| PreemptivePriority.SamePriorityRun | src/algorithms/preemptivePriority.js:11-35 | The rest of the loop keeps every process uninterrupted. |
| PreemptivePriority.SamePriorityRunsToCompletion | src/algorithms/preemptivePriority.js:11-56 | With all priorities equal, the result is first come, first served without preemption: every process's turnaround time is its response time plus its burst, and its last slice ends exactly its burst after its first slice starts. |
| PreemptivePriority.RunHead | src/algorithms/preemptivePriority.js:24-34 | One tick of the head on the array, with the shift and completion time when nothing remains, is one `Execute` for 1 tick followed by the drop. |
| PreemptivePriority.Iterate | src/algorithms/preemptivePriority.js:12-34 | One pass of the loop body on the array, including the sort, is exactly one `Step`. |
| PreemptivePriority.PreemptivePriority | src/algorithms/preemptivePriority.js:1-57 | The whole `preemptivePriority` function returns `PreemptivePrioritySpec`, the report of `Run` from the initial state. |
| Mlfq.Step | src/algorithms/mlfq.js:12-50 | Reference definition of one iteration: admission to level 0, the level scan, then an idle tick when every level is empty, else one dispatch of the first non-empty level's head for `min(level quantum, remaining)` and its demotion when work is left. It keeps the number of runtime copies and of levels; what it does is stated by `IdleIteration`, `Dispatch`, `StalePop` and `StepKeepsValid`. |
| Mlfq.FirstNonEmpty | src/algorithms/mlfq.js:21-27 | The level scan's result is the index of a non-empty level with every level before it empty, or the number of levels when all are empty. |
| Mlfq.SelectLevel | src/algorithms/mlfq.js:21-27 | The `for` loop with `break` returns exactly `FirstNonEmpty`. |
| Mlfq.SizeUpdate | src/algorithms/mlfq.js:23 | Replacing one level changes the total number of entries by the change in that level's length. This is the third component of the termination measure. |
| Mlfq.AdmittedTop | src/algorithms/mlfq.js:12-16 | After the admission pass, level 0 holds every arrived unfinished process exactly once and nothing else. |
| Mlfq.StepKeepsValid | src/algorithms/mlfq.js:11-51 | One iteration keeps the invariant: bookkeeping, level 0 a ready queue, lower levels holding arrived processes. The measure (total remaining burst, distance to the last arrival, total entries in all levels) decreases lexicographically. |
| Mlfq.StaleDispatchKeepsValid | src/algorithms/mlfq.js:21-49 | A pop from a lower level keeps the invariant and decreases the lexicographic measure (total remaining burst, distance to the last arrival, total entries in all levels). So stale pops cannot go on forever. |
| Mlfq.RunFinishes | src/algorithms/mlfq.js:11 | The loop ends in a state that keeps the invariant and in which no process has work left. |
| Mlfq.MlfqResult | src/algorithms/mlfq.js:53-72 | The result of `mlfq`: for every process, response time is the start of its first slice minus its arrival and turnaround is the end of its last slice minus its arrival; turnaround is at least burst and response time non-negative, and slice lengths per process add up to its burst. The chart is ordered, `contextSwitches` counts slices, throughput is count over the end of the last slice, waiting times are NaN, the average turnaround and response times are the means, and there is no `quantum` field. |
| Mlfq.IdleIteration | src/algorithms/mlfq.js:29-32 | When every level is empty after admission, the iteration only adds 1 to the clock: no slice, no change to any process. |
| Mlfq.Dispatch | src/algorithms/mlfq.js:21-50 | The head of the first non-empty level runs from the current time for `min(level quantum, remaining)`, and its remaining burst drops by that amount. With work left it goes to the tail of the next level down, or of its own level if it is the last. Otherwise the new clock is its completion time and the levels only lose that entry. Every level other than its own and the demotion target is unchanged. The dispatch is exactly `Dispatched`: its first response is recorded if unset, its completion time is kept while work remains, and every other runtime copy is unchanged. |
| Mlfq.DemoteAfterPop | src/algorithms/mlfq.js:43-47 | After the shift, demotion appends the process to level+1, or back to the same level when it is the last one. The number of levels and every other level are unchanged. |
| Mlfq.StalePop | src/algorithms/mlfq.js:13-49 | A process popped from a lower level has remaining burst 0 and a completion time already set. Its slice is `[t, t]`, the clock does not move, its completion time is overwritten with `t`, and nothing else changes. |
| Mlfq.StaleExecute | src/algorithms/mlfq.js:37-49 | An empty slice of a finished process only appends `[t, t]` and resets its completion time to `t`. |
| Mlfq.RunHead | src/algorithms/mlfq.js:23-50 | Shift, dispatch and demote or complete on the array: the new array, clock, chart and levels are those of one `Execute` for `min(quantum, remaining)` followed by `Demote`. |
| Mlfq.Iterate | src/algorithms/mlfq.js:12-50 | One pass of the loop body (admission, level scan, idle tick or dispatch) is exactly one `Step`. |
| Mlfq.Mlfq | src/algorithms/mlfq.js:1-73 | The whole `mlfq` function returns `MlfqSpec`, the report of `Run` from the initial state with every level empty. |
| Mlfq.StepOneLevel | src/algorithms/mlfq.js:43-47 | With a single level, an MLFQ iteration is a round robin iteration on that level's queue. |
| Mlfq.RunOneLevel | src/algorithms/mlfq.js:11-51 | With a single level, the whole MLFQ run is the round robin run. |
| Mlfq.SingleLevelIsRoundRobin | src/algorithms/mlfq.js:43-47 | With a single level of quantum `q`, `mlfq` returns exactly what `roundRobin` returns with `q`, apart from the `quantum` field round robin adds. |

## Left out

- Number formatting: `toFixed(2)` and the division into floating point are not modelled. Averages and throughput are exact `real` quotients, and NaN is `None`.
- Degenerate inputs are preconditions rather than behaviour, in `ValidInput` and `Mlfq.Quanta`:
  - an empty process list gives NaN averages in the source;
  - a process with a burst of 0 is never scheduled, so its completion time stays undefined;
  - a round robin quantum, or the quantum of MLFQ level 0, of 0 or less makes no progress, so the loop would never end (a quantum between 0 and 1 does make progress; the model requires at least 1 because quanta are positive `nat`s, see below);
  - the quanta of the lower MLFQ levels only size the empty slices of stale pops (a finished process has nothing left to run), so any value of 0 or more would do (a negative one would hand work back to a finished process and move the clock back); they are required to be at least 1 like the caller's `[q, 2q, 4q]` with `q > 0`;
  - an empty `queues` array crashes the MLFQ admission pass.
- Fractional quanta (the UI steps the quantum by 0.5) and non-integer or negative arrivals and bursts: every time is a `nat` and every quantum a positive `nat`.
- The React components, the quantum sweep in `App.js`, the unused average-response helper, the context-switch time setting and the loading of process data are not part of this model. They compute only the simulators' inputs (the process list, with its defaults for missing fields, and the MLFQ quanta `[q, 2q, 4q]`), which the model takes as parameters.
- Object identity: processes are told apart by their index in the input, not by object identity. A Gantt slice carries that index (`proc`) next to `pid`.
- `PreemptivePriority.SortByPriority`: `Array.prototype.sort` is a library call. It is modelled as a stable insertion sort on the list value, not as an in-place algorithm. Its result is fixed by being a stable sort by priority.
- The ready queues and MLFQ levels are `seq<nat>` values that each push or shift reassigns, not mutable JavaScript arrays. No aliasing between queues arises in the source.
- The order of the dispatch lines: the source records the first response before computing `execTime`. `RunSlice` takes `execTime` as an argument computed first. Recording the first response does not change the remaining burst it is computed from.
