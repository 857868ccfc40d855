# Round-robin CPU scheduling simulator, modelled in Dafny

`rr.js` simulates preemptive round-robin scheduling of a fixed set of
processes. Each process has an arrival time and a CPU burst. The scheduler
(`roundRobinScheduler`, rr.js:99-199) advances a virtual clock and keeps a
FIFO ready queue. It runs the head of the queue for at most one time
quantum and then requeues or completes it. It charges an optional
context-switch overhead between slices and emits an idle tick when nothing
is ready. It records the following:

- a schedule of `[tag, duration]` entries;
- completion, response, turnaround and waiting times per process;
- a log of ready-queue snapshots;
- a context-switch counter.

The model has two layers, connected by one proved equality:

- `RoundRobin` is a functional reference model of the scheduler.
  - `Sim` is the loop's local state together with the parts of the output
    that the loop writes.
  - `Scan` is the admission scan at the top of the loop.
  - `IdleTick` and `Dispatch` are the two ways a pass continues.
  - `Run` is the `while (true)` loop.
  - `Simulate` is the whole call.
  - `Run` terminates on the pair (total remaining time, latest arrival
    minus the clock), ordered lexicographically.
- `Scheduler` is the imperative version of the same code.
  - It uses arrays for `remainingTime`, `arrived` and `started`, and
    sequences for the queue and the output lists.
  - The two admission loops and the metrics loop are `while` loops with
    invariants.
  - `RoundRobinScheduler` is proved to return exactly `Simulate(input)`.
- `Timeline` gives schedule entries (`Proc(i)`, `Idle`, `CS`) and the sums
  and positions read off a schedule: total duration, start of entry `k`,
  time and count per subject, and first and last index.
- `Invariants` states four invariants of the loop-top state and proves that
  every pass keeps them:
  - the schedule's arithmetic;
  - the per-process records;
  - the shape of the schedule around context switches and idle ticks;
  - the snapshot log.
- `Properties` derives the guarantees of the finished run from those
  invariants.
- `Scenarios` replays two concrete inputs pass by pass.

`ValidInput` states what the scheduler relies on of its input:

- one arrival time and one burst per process. `calculateOutput` pushes
  the id, arrival and burst arrays in lockstep (rr.js:330-335).
- integer arrival times of at least 0;
- integer bursts of at least 1;
- a quantum of at least 1.

The three bounds are the ones the number fields are clamped to
(rr.js:6-28). That clamp runs only when a field changes, so a field the
user never edits keeps its HTML default, which rr.js does not show. For
such fields the bounds are assumed. They are needed, not just convenient:

- With a quantum of 0 every slice is 0 (rr.js:140). The process is requeued
  (rr.js:162-163) with its time unchanged, so the loop at rr.js:112-185 never
  ends.
- Take a process with burst 0 that arrives after all the others have
  finished. It is never admitted: the `some` test at rr.js:128 fails and the
  loop reaches `break` (rr.js:134) first. Its completion slot stays empty and
  its turnaround is `NaN` (rr.js:189).

The context-switch overhead is left unconstrained. The code only tests
whether it is positive.

Two traces worked from rr.js:

- **Arrivals 0, 1, 2, bursts 5, 3, 1, quantum 2, no overhead.** The code
  completes the processes at 9, 8 and 5. P2 and P3
  arrive during P1's first slice. The scan at rr.js:154-159 queues them
  ahead of P1, so the slices run P1 P2 P3 P1 P2 P1 (`Scenarios.StaggeredTrace`).
- **Arrivals 0 and 5, bursts 3 and 3, quantum 1, overhead 1.** The run has
  no idle tick. P1's third slice ends at time 5, and the `<=` test at
  rr.js:155 admits P2 right then. A context switch is charged after every
  slice except the last, including between two slices of P1
  (`Scenarios.LateTrace`).

## Model

| member | source | states |
|---|---|---|
| Scheduler.RoundRobinScheduler | rr.js:99-191 | For every valid input, returns exactly `Simulate(input)`: the same completion, turnaround, waiting and response times, schedule, snapshot log and switch count as the reference model. |
| Scheduler.SchedulerLoop | rr.js:112-185 | The array-based loop stops in the state `Run` reaches from the same loop-top state: the remaining times, the arrival and start flags, completion, response, schedule, log and switch count all equal that state's. |
| Scheduler.Pass | rr.js:113-184 | One pass over the arrays. It reports `done` exactly when the scan leaves the queue empty and no time remains. Otherwise the new state is the reference idle tick (empty queue) or dispatch cycle (non-empty queue). |
| Scheduler.AdmitArrivals | rr.js:114-124 | The top-of-loop scan flags every due process as arrived. It appends them to the queue in index order and logs one snapshot of the queue after each push. |
| Scheduler.AdmitDuringSlice | rr.js:154-159 | The scan after a slice flags and enqueues the same processes but logs nothing. |
| Scheduler.SomeRemaining | rr.js:128 | Returns whether some process still has time left. |
| Scheduler.StartSlice | rr.js:139-151 | Dequeues the head. It runs it for `min(quantum, remaining)` and records its response time only on its first slice. |
| Scheduler.EndSlice | rr.js:162-184 | Requeues the process or records its completion. It charges a switch only when the overhead is positive and the queue is non-empty, and logs the closing snapshot with `running` or `terminate`. |
| Scheduler.DispatchCycle | rr.js:138-184 | The array state after one dispatch cycle is `Dispatch` of the state before it. |
| Scheduler.Metrics | rr.js:188-191 | Turnaround is completion minus arrival, and waiting is turnaround minus burst, per process. |
| Scheduler.RunIdle | rr.js:126-132 | An idle pass keeps the queue invariant and leaves `Run` unchanged, and some process still arrives later than the current time. |
| Scheduler.RunDispatch | rr.js:138-184 | A dispatch pass keeps the queue invariant and strictly lowers the total remaining time, which stays non-negative. |
| RoundRobin.Run | rr.js:112-185 | The loop terminates in a state that keeps the queue invariant, with an empty queue and every remaining time 0. |
| RoundRobin.LoopPass | rr.js:113-184 | The scan keeps the queue invariant and the clock. Then one of three things holds. With an empty queue and time left, a process arrives later and the idle tick keeps the invariant. With an empty queue and no time left, every process is done. With a non-empty queue, the dispatch cycle keeps the invariant and strictly lowers the total remaining time. |
| RoundRobin.ArrivalsAre | rr.js:114-115 | The processes a scan at time `t` admits are exactly those not yet arrived whose arrival time is at most `t`. |
| RoundRobin.ArrivalsIncreasing | rr.js:114-118 | A scan admits processes in strictly increasing index order, so none twice. |
| RoundRobin.ArrivalsNone | rr.js:114-115 | A scan at a time when no unarrived process is due admits nobody. |
| RoundRobin.ScanNothingDue | rr.js:114-124 | With nothing due, the top-of-loop scan leaves the state, queue and log unchanged. |
| RoundRobin.ScanKeepsInv | rr.js:114-124 | After the scan, the queue holds each arrived unfinished process exactly once, and every process whose arrival time has come has arrived. |
| RoundRobin.HeadReady | rr.js:139-140 | The dequeued process has arrived, has arrived by now, and has between 1 and its burst time left. |
| RoundRobin.DispatchKeepsInv | rr.js:139-166 | A dispatch cycle keeps the queue invariant. |
| RoundRobin.RequeueKeepsInv | rr.js:154-164 | Appending the newcomers and requeueing the preempted process keeps the queue free of duplicates and equal to the arrived unfinished processes. |
| Invariants.SchedScan | rr.js:114-124 | The scan keeps the schedule invariant. |
| Invariants.SchedIdle | rr.js:130-131 | An idle tick keeps the schedule invariant: each entry is well formed, each slice is `min(quantum, time left)`, the durations sum to the clock, and served plus remaining time sums to the bursts. |
| Invariants.SchedDispatch | rr.js:140-172 | A dispatch cycle keeps the schedule invariant. |
| Invariants.ProcScan | rr.js:114-124 | The scan keeps the per-process records. |
| Invariants.ProcIdle | rr.js:130-131 | An idle tick keeps the per-process records: started exactly when served, response read off the first slice, completion read off the last slice. |
| Invariants.ProcDispatch | rr.js:143-166 | A dispatch cycle keeps the per-process records. |
| Invariants.ShapeScan | rr.js:114-124 | The scan keeps the schedule's shape. |
| Invariants.ShapeIdle | rr.js:126-132 | An idle tick keeps the shape, and the new tick is justified: all arrived processes are done and one is still to come. |
| Invariants.ShapeDispatch | rr.js:149-173 | A dispatch cycle keeps the shape: each switch sits right after a slice and, unless it is last, right before one. |
| Invariants.LogScan | rr.js:119-122 | The admission snapshots keep the log invariant. |
| Invariants.LogIdle | rr.js:130-131 | An idle tick keeps the log invariant. |
| Invariants.LogDispatch | rr.js:175-184 | The closing snapshot of a dispatch cycle keeps the log invariant: times ordered, the last `ready` the current queue, one termination per finished process, one `running`/`terminate` report per slice. |
| Properties.PassKeeps | rr.js:113-184 | One loop pass keeps all four invariants and the queue invariant. |
| Properties.RunKeeps | rr.js:112-185 | All invariants hold at the `break`. |
| Properties.Final | rr.js:134 | The state at the `break` has an empty queue and no time left, and it is where every output field comes from. |
| Properties.ServesBursts | rr.js:149-150 | Each process is served exactly its burst, and all slices together serve the sum of the bursts. |
| Properties.EntriesWellFormed | rr.js:131-170 | Every slice lasts between 1 and the quantum and equals `min(quantum, time left)`. Every idle tick lasts 1 and every switch lasts the overhead, which is then positive. |
| Properties.CompletionIsLastSliceEnd | rr.js:165 | Each process has a last slice. Its completion time is the end of that slice and at most the schedule's length. |
| Properties.ResponseIsFirstSliceStart | rr.js:143-146 | Each process has a first slice. Its response time is that slice's start minus its arrival, and is non-negative. |
| Properties.MetricsBounds | rr.js:188-191 | Turnaround is completion minus arrival and waiting is turnaround minus burst. Every process has `0 <= response <= waiting`. |
| Properties.SwitchesBetweenSlices | rr.js:169-173 | The counter equals the number of switch entries. Every switch lasts the positive overhead and is preceded and followed by a slice, so it is never last and never before an idle tick. |
| Properties.IdleOnlyWhenNothingReady | rr.js:126-132 | Every idle tick lasts 1 and starts at a time when every arrived process has completed and some process is still to arrive. |
| Properties.Makespan | rr.js:130-171 | The schedule's length is the sum of the bursts plus idle time plus switching time. With processes it equals the largest completion time; without any the schedule is empty. |
| Properties.SnapshotLog | rr.js:107-184 | The log starts with the empty snapshot at 0 and ends with an empty ready list. Its times never decrease and no snapshot reports both kinds. Each process is terminated once and reported once per slice. |
| Properties.ArrivalsInWindow | rr.js:114-115 | When the flags record exactly the arrivals up to `lo`, a scan at `t` admits the processes arriving in `(lo, t]`, in index order. |
| Properties.ReadyAtDequeue | rr.js:114-139 | At each dequeue the queue holds, once each, exactly the processes that have arrived by now and have time left. |
| Properties.ArrivalsBeforePreempted | rr.js:154-164 | Processes arriving during a slice join the queue in index order, ahead of the preempted process, which goes last. |
| Properties.SwitchArrivalsBehind | rr.js:154-173 | Processes arriving during the following switch are admitted by the next top-of-loop scan, behind the preempted process. |
| Properties.WaitAtLeastResponse | rr.js:143-190 | A process served its burst between its first start and its completion has waited at least its response time. |
| Timeline.Untag | rr.js:212-221 | A tag decodes exactly when it is -1, -2 or a positive process tag, and re-encodes to itself. |
| Timeline.TagRoundTrip | rr.js:131-170 | Every subject's tag decodes back to it, and process tags are positive. |
| Timeline.ServedBetween | rr.js:149-151 | From the start of a subject's first entry to the end of its last, at least its total time elapses. |
| Timeline.DurationSplits | rr.js:130-171 | A schedule's length is its busy time plus its idle time plus its switching time. |
| Scenarios.StaggeredTrace | rr.js:99-191 | Arrivals 0, 1, 2, bursts 5, 3, 1, quantum 2, no overhead. Slices P1(2) P2(2) P3(1) P1(2) P2(1) P1(1); completion 9, 8, 5; response 0, 1, 2; turnaround 9, 7, 3; waiting 4, 4, 2; no switch. |
| Scenarios.LateTrace | rr.js:99-191 | Arrivals 0 and 5, bursts 3 and 3, quantum 1, overhead 1. No idle time; a switch after every slice but the last (5 in all); completion 5, 11; response 0, 1; turnaround 5, 6; waiting 2, 3. |

## Left out

- The input form and row management (`inputOnChange`, `addProcess`, `deleteProcess`, the `process` counter, event wiring; rr.js:1-62, 350) are DOM plumbing. Their clamping rule becomes `ValidInput`.
- `calculateOutput` (rr.js:320-347) reads the page and calls the scheduler with a fresh `Output`. It is DOM input and output.
- `showGanttChart` (rr.js:202-260) draws with Google Charts and `Date`. Only its reading of the tags is modelled, as `Untag`.
- `showFinalTable` (rr.js:262-317) builds HTML and computes CPU utilisation and throughput in floating point.
- The averages (rr.js:194-198) are floating-point divisions, and they give NaN for an empty process list. `averageTimes` is not part of the modelled `Output`.
- `selectedAlgorithm` and `Input.algorithm` (rr.js:3, 70) are not modelled. They are never read, since round robin is the only algorithm.
- The scheduler fills in the caller's `output` object in place. The model returns an `Output` value instead. The only caller passes a fresh object, so aliasing of `output` is not modelled.
- `completionTime` and `responseTime` are JavaScript arrays with holes until a slot is written. The model starts them as zeros. Under `ValidInput` every process is served and completes, so every slot is written before the function returns.
- Numbers are unbounded integers. JavaScript numbers are doubles, which are exact only up to 2^53.
- Untag: tags 0 and below -2, which the scheduler never writes, decode to nothing. The chart code would label them as a process.
