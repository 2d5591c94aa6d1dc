# MLQ CPU-scheduling simulator in Dafny

This project models the Multi-Level Queue scheduler of `simulador_mlq.py`. The
scheduler has three ready queues:
- queue 1: Round-Robin with quantum 3;
- queue 2: Round-Robin with quantum 5;
- queue 3: First-Come-First-Served.

The queues are served in strict priority order 1 > 2 > 3. Processes wait in an arrival-ordered pending list until the clock reaches their arrival time. They are then admitted to the tail of the queue their id names. The dispatch loop works as follows:
- It runs the head of the first non-empty queue for the slice that queue's policy gives it.
- It advances the clock by that slice.
- A finished process gets its final metrics and joins the finished list.
- An unfinished process goes back to the tail of its own queue.
- When nothing is ready, the loop idles to the next arrival.
- When nothing is pending either, the loop breaks.

At the end, the finished list is sorted by name.

The model has two layers:

- **The imperative layer.** It follows the program's objects:
  - `Processes.Process` is the process object, with the two mutators `Run` and `ComputeFinalMetrics`.
  - `Queues.ReadyQueue` holds a policy and a FIFO of process references.
  - `Simulator.Scheduler` holds the clock, the pending list, the three queues and the finished list.

  The loops of the loader, the admission and the dispatch are `while` loops in methods.
- **The pure layer.** Module `Engine` is the dispatch loop as a state machine over value snapshots (`Job`, `State`):
  - `Admit`, `Select`, `Serve` and `Step` model one iteration;
  - `Run` models the whole loop;
  - the lemmas about it cover the invariant, the accounting of every process, the clock, priority, termination and the sample input.

Every `Scheduler` method is proved against the pure layer through `Abs()`, the snapshot of the object graph. For example, `StepOnce` ensures `Abs() == Step(old(Abs())).state`. `Simulate` ensures `Abs().(finished := Views(completed)) == Run(old(Abs()))`: its state, with the finished list taken in completion order before the name sort, is the engine's whole run. It also ensures that the simulator holds the same processes as before. Process identity is tracked by `Members()`, the multiset of all processes held in any list. `Valid()` states that no process is held twice.

Processes whose queue id names no queue are dropped at admission, as in the program. The model keeps them in a ghost `dropped` list so that every loaded process can be accounted for.

## Model

| member | source | states |
|---|---|---|
| Processes.Fresh | simulador_mlq.py:9-25 | a loaded snapshot carries its record and has not started; it counts as finished from the start exactly when its burst is not positive |
| Processes.Execute | simulador_mlq.py:27-33 | the record is kept and the process is started; the remaining time drops by exactly the slice, so it finishes exactly when the slice covers what remained; a response time already recorded is kept; the final metrics are untouched |
| Processes.Finalize | simulador_mlq.py:35-39 | the run-state is untouched; completion is the given time, waiting is completion minus arrival minus burst, and turnaround is waiting plus burst |
| Processes.Process.constructor | simulador_mlq.py:9-25 | a new process carries its five inputs, has its whole burst remaining, has not started, has response time -1 and has zero metrics |
| Processes.Process.Run | simulador_mlq.py:27-33 | remaining time drops by exactly the slice; the response time is set to clock minus arrival and the started flag is raised only on the first run, and later runs keep it; the metrics are untouched |
| Processes.Process.ComputeFinalMetrics | simulador_mlq.py:35-39 | completion is the given time, turnaround is completion minus arrival, waiting is turnaround minus burst; the run-state is untouched |
| Processes.Process.IsFinished | simulador_mlq.py:41-43 | true exactly when the snapshot is finished, that is when no time remains |
| Processes.ExecuteAllSpec | simulador_mlq.py:27-33 | after any non-empty series of runs, remaining time has dropped by the sum of the slices, the process is started, the response time is the one recorded by the first run, and the inputs and final metrics are unchanged |
| Processes.RunToCompletion | simulador_mlq.py:27-43 | a process run from its loaded state has no time left exactly when its slices add up to its burst, and its response time is the first run's clock minus its arrival |
| Queues.NextSlice | simulador_mlq.py:74-101 | FCFS gives the whole remaining time; Round-Robin gives at most the quantum and at most the remaining time, and equals one of the two, the smaller |
| Queues.SlicesSpec | simulador_mlq.py:74-101 | the slices a process receives until it finishes are positive and sum to its remaining time; Round-Robin slices never exceed the quantum and all but the last are whole quanta; FCFS gives a single slice |
| Queues.ReadyQueue.constructor | simulador_mlq.py:55-58 | a new queue has the given policy and no processes |
| Queues.ReadyQueue.Add | simulador_mlq.py:60-61 | the process is appended at the tail and the earlier elements keep their order |
| Queues.ReadyQueue.HasWork | simulador_mlq.py:63-64 | true exactly when the queue is non-empty |
| Queues.ReadyQueue.Return | simulador_mlq.py:66-67 | the process is appended at the tail and the earlier elements keep their order |
| Queues.ReadyQueue.TakeNext | simulador_mlq.py:74-101 | an empty queue yields no process and slice 0 and is unchanged; otherwise the head is removed, the rest keeps its order, and the slice is the policy's slice for the head's remaining time |
| Engine.PolicyOf | simulador_mlq.py:109-111 | queue 1 is Round-Robin with quantum 3, queue 2 Round-Robin with quantum 5 and queue 3 FCFS, each in both directions |
| Engine.Load | simulador_mlq.py:129-130 | the loaded state is at time 0, has empty queues, no finished and no dropped process, and one pending process per record |
| Engine.LoadKeepsInfos | simulador_mlq.py:129-130 | the pending list carries the records in their given order |
| Engine.Route | simulador_mlq.py:145-148 | a process naming a known queue is appended at that queue's tail and the dropped list is unchanged; one naming no queue joins only the dropped list; the clock, the pending and finished lists and the other queues are unchanged; line 187 puts a process back through the same routing |
| Engine.Admit | simulador_mlq.py:141-148 | admission keeps the clock and the finished list, only appends to the queues and the dropped list, and leaves a suffix of the pending list whose first process arrives strictly after the clock |
| Engine.ArrivedPrefix | simulador_mlq.py:143 | the admitted count is the longest prefix of pending that has arrived: everything before it has arrived and the next one has not |
| Engine.Routed | simulador_mlq.py:145-148 | the processes routed to a queue all name that queue and come from the admitted list |
| Engine.Unrouted | simulador_mlq.py:145-148 | the processes dropped at admission all name no queue and come from the admitted list |
| Engine.AdmitHead | simulador_mlq.py:141-148 | admitting the arrived head to its queue, or dropping it, and then admitting the rest is the same as admitting everything at once |
| Engine.AdmitNone | simulador_mlq.py:143 | when the head has not arrived, or nothing is pending, admission changes nothing |
| Engine.AdmitPreservesInv | simulador_mlq.py:141-148 | admission keeps the loop invariant, and afterwards every pending process arrives strictly after the clock |
| Engine.AdmitConserves | simulador_mlq.py:141-148 | admission loses and duplicates no process; the work it removes is exactly that of the processes it drops |
| Engine.FirstBusy | simulador_mlq.py:166-174 | the queue served is the first non-empty one in the order 1, 2, 3, and every queue before it is empty; 0 exactly when all three are empty |
| Engine.Select | simulador_mlq.py:166-174 | no process exactly when all queues are empty; otherwise the head of the first non-empty queue, taken off that queue, with a slice no larger than its remaining time, while the other queues, the pending list, the finished list and the clock are unchanged |
| Engine.SelectedRunnable | simulador_mlq.py:166-177 | in a consistent state the selected process names a known queue and gets a positive slice |
| Engine.ServedJob | simulador_mlq.py:177-187 | a ready process gets a slice between 1 and its remaining time; it finishes exactly when the slice is all of its remaining time; then it is retired with consistent metrics, and otherwise it is ready again in its own queue |
| Engine.ServedSlices | simulador_mlq.py:177-187 | the slice dispatch gives a ready process is the first slice of its queue's slice plan for its remaining time, and the plan for what then remains is the rest of that plan |
| Engine.Serve | simulador_mlq.py:177-187 | the loop continues, the clock advances by the slice, the pending list is unchanged, and the finished list grows at its end, by one process exactly when the run finished it |
| Engine.Idle | simulador_mlq.py:189-193 | only the clock can change; the loop breaks exactly when nothing is pending, and otherwise the clock jumps to the first pending arrival |
| Engine.Step | simulador_mlq.py:159-193 | an iteration never moves the clock back, appends at most one process to the finished list and changes none of those already there, and breaks only when nothing is left pending |
| Engine.ZeroBurstAbandonsWork | simulador_mlq.py:177-193 | a selected process with no positive remaining time is taken off its queue without being run or put back; with nothing pending, the loop then breaks although queue 2 still holds work |
| Engine.StepPreservesInv | simulador_mlq.py:159-193 | every iteration keeps the loop invariant: pending is sorted by arrival and holds processes as loaded, with positive bursts, queued processes are ready, and finished processes are retired with consistent metrics |
| Engine.StepConserves | simulador_mlq.py:159-193 | every iteration keeps each process in exactly one place, counted with multiplicity |
| Engine.StepClock | simulador_mlq.py:177-193 | the loop breaks exactly when nothing is pending or ready after admission; running advances the clock strictly, by exactly the work removed, and leaves pending unchanged; idling jumps strictly forward to the next arrival |
| Engine.StepDecreases | simulador_mlq.py:159-193 | every iteration that does not break decreases the measure (work left, number pending, gap to the next arrival), so the loop terminates |
| Engine.IdleDecreases | simulador_mlq.py:189-191 | an idle iteration decreases the measure: the work drops by exactly that of the processes dropped at admission, and otherwise the iteration admits a process or closes the gap to the next arrival |
| Engine.StrictPriority | simulador_mlq.py:166-187 | the process run is the head of the first non-empty queue; it runs for its policy's slice; other queues and pending are untouched; it either retires with metrics taken at the new clock or goes back to the tail of its own queue |
| Engine.FinishedGrows | simulador_mlq.py:183-185 | the finished list only grows at its end, by at most one process per iteration, whose completion time is the clock at that moment |
| Engine.Run | simulador_mlq.py:159-193 | the loop ends in a consistent state with nothing pending or ready, has lost and duplicated no process, never moved the clock back, and has only appended to the finished list |
| Engine.RunStep | simulador_mlq.py:159-193 | an iteration keeps the invariant, the population, the clock order and the finished prefix; after a break nothing is left pending or ready, and otherwise the measure decreases |
| Engine.RunUnfold | simulador_mlq.py:159-193 | the loop stops at once when no work is left, stops after an iteration that breaks, and otherwise goes on from where that iteration left off |
| Engine.RunWithoutIdle | simulador_mlq.py:159-193 | when everything pending has arrived and names a known queue, the loop ends exactly when all the outstanding work has run |
| Engine.LoadInv | simulador_mlq.py:117-131 | a loaded, arrival-sorted list of positive-burst processes is a consistent state holding exactly the loaded processes |
| Engine.RunAccounts | simulador_mlq.py:117-197 | after a whole run, every loaded process is either finished with consistent metrics or dropped for naming no queue, none is lost or counted twice, and none is dropped when every id is known |
| Engine.AllAtOnce | simulador_mlq.py:117-197 | a batch arriving at time 0 into known queues finishes completely, and the final clock is the sum of the bursts |
| Engine.SampleWork | simulador_mlq.py:241-245 | the sample input is loadable, arrives at time 0 into known queues and holds 48 units of work |
| Engine.SampleRun | simulador_mlq.py:241-245 | on the sample input every process finishes and the simulation ends at time 48 |
| Ordering.NameLeTotal | simulador_mlq.py:197 | any two names are comparable |
| Ordering.NameLeAntisymmetric | simulador_mlq.py:197 | names that come no later than each other are equal |
| Ordering.NameLeTransitive | simulador_mlq.py:197 | the name order is transitive |
| Ordering.SortByName | simulador_mlq.py:197 | the report order is a permutation of the completion order of the same length |
| Ordering.SortByNameSorted | simulador_mlq.py:197 | the report order is sorted by name and is a permutation of the completion order |
| Ordering.SortByArrival | simulador_mlq.py:129 | the pending order is a permutation of the loaded order of the same length |
| Ordering.SortByArrivalSorted | simulador_mlq.py:129 | the pending order is sorted by arrival time and is a permutation of the loaded order |
| Ordering.SortByArrivalKeepsOrder | simulador_mlq.py:129 | the sort is stable on input already in arrival order: ties included, such a list comes out unchanged |
| Simulator.Spawn | simulador_mlq.py:124-127 | one new, distinct process per record, in record order, each as freshly loaded from its record |
| Simulator.Loaded | simulador_mlq.py:129-130 | the sorted pending list is arrival-ordered, is a permutation of the created list, is that list itself when it was already in order, holds no process twice, and snapshots to the engine's loaded state; that state is consistent when every burst is positive |
| Simulator.Scheduler.constructor | simulador_mlq.py:108-115 | a new simulator has the three queues RR(3), RR(5) and FCFS, all empty, clock 0 and empty lists, and is consistent |
| Simulator.Scheduler.Load | simulador_mlq.py:117-131 | processes are created in record order and become pending, stably sorted by arrival time; the state is the engine's loaded state, and it is consistent when every burst is positive |
| Simulator.Scheduler.HasPendingWork | simulador_mlq.py:150-153 | true exactly when something is pending or some queue has work |
| Simulator.Scheduler.Enqueue | simulador_mlq.py:145-148 | the process object itself is appended to the tail of the queue its id names, as the engine routes it, and nothing else changes; the same method puts a process back after it runs (line 187) |
| Simulator.Scheduler.PopPending | simulador_mlq.py:144 | the head of pending is taken off, and nothing else changes |
| Simulator.Scheduler.Drop | simulador_mlq.py:145-148 | a process whose id names no queue leaves the simulator's lists, recorded only in the ghost dropped list |
| Simulator.Scheduler.MoveArrivals | simulador_mlq.py:141-148 | the loop's effect is exactly the engine's admission, and the simulator stays consistent |
| Simulator.Scheduler.TakeFrom | simulador_mlq.py:74-101 | the head object of queue k is removed and returned with its policy's slice, the rest of that queue keeps its order, and nothing else changes |
| Simulator.Scheduler.Pick | simulador_mlq.py:163-174 | exactly the engine's selection: no process when all queues are empty, and otherwise the head object of the first non-empty queue, taken off it, with its slice |
| Simulator.Scheduler.RunFor | simulador_mlq.py:177-180 | the process is run for the slice at the current time and the clock advances by the slice |
| Simulator.Scheduler.Retire | simulador_mlq.py:183-185 | the process gets its final metrics at the current clock and is appended to the finished list |
| Simulator.Scheduler.Dispatch | simulador_mlq.py:177-187 | exactly the engine's serve step: run, advance the clock, then retire the process or put it back at the tail of its queue |
| Simulator.Scheduler.WaitForArrival | simulador_mlq.py:189-191 | the clock jumps to the arrival time of the first pending process, and nothing else changes |
| Simulator.Scheduler.StepOnce | simulador_mlq.py:159-193 | one loop iteration is exactly the engine's step, including when the loop breaks, and the simulator stays consistent |
| Simulator.Scheduler.SortFinished | simulador_mlq.py:197 | the finished list is sorted by name, is a permutation of what it was, and the rest of the state is unchanged |
| Simulator.Scheduler.Simulate | simulador_mlq.py:155-197 | the simulator keeps the same processes and stays consistent; its final state, with the finished list in completion order, is the engine's whole run; the finished list is then that completion order sorted by name |
| Simulator.SampleInOrder | simulador_mlq.py:241-245 | the sample records all arrive together, so loading keeps their order |
| Simulator.RunSample | simulador_mlq.py:241-245 | the sample input loaded and simulated on the objects ends at time 48 |

## Left out

- Reading the input file is not modelled. This covers the line parsing, comments, the `:`/`;` separators, the string-to-integer conversion and the error handling. `Scheduler.Load` takes the parsed records instead.
- Console output is not modelled.
- `generar_resultados` is not modelled: the output file and the floating-point averages.
- `obtener_datos_salida`, `crear_mlq001_si_no_existe` and the batch driver under `__main__` are not modelled. They are file and console plumbing.
- The priority field is carried but never consulted, as in the program.
- Scheduler.Load: models a single call on a new simulator. Calling the loader twice would add to the records of the first call; that accumulation is not modelled.
- Scheduler.Load: guarantees consistency, and with it `Simulate`'s precondition, only when every burst is positive. The program accepts other bursts. A process with no positive burst fails the run guard at line 177 of `simulador_mlq.py`. It is taken off its queue, is never run or re-queued, and is lost; `Engine.ZeroBurstAbandonsWork` shows this. The whole-run lemmas assume positive bursts.
- Putting back a process whose id names no queue would raise an error in the program. It cannot happen because such a process is dropped at admission, so the model has no error path for it.
- SortByArrivalKeepsOrder: states the stability of the arrival sort only on input already in arrival order. This is the case for the sample. It does not give a general statement about ties in unsorted input.
- SortByName: is stated as sorted and a permutation only. Its stability, that equal names keep their completion order as Python's sort keeps them, is not stated. The name order compares characters by code point with a proper prefix first, which is Python's `str` order.
- Integer width is not modelled: Python integers are unbounded, and so are Dafny's.
- The clock parameter of `TakeNext` is part of the interface but, as in the program, unused.
