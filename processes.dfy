/** Processes of the multi-level-queue simulator.

    A process is loaded with five fixed inputs (name, burst time, arrival time,
    queue id, priority) and carries a run-state (remaining time, whether it has
    started) and four metrics (response, completion, turnaround and waiting time).
    `Job` is the value snapshot of that state, used by the pure dispatch engine;
    `Process` is the mutable object the scheduler moves between its lists. */
module Processes {

  /** The five inputs of a process; they never change once it is loaded. */
  datatype ProcessInfo = ProcessInfo(name: string, burst: int, arrival: int, queue: int, priority: int)

  /** A snapshot of a process: its inputs, its run-state and its metrics. */
  datatype Job = Job(info: ProcessInfo, remaining: int, started: bool,
                     response: int, completion: int, turnaround: int, waiting: int)

  /** The state a freshly constructed process is in: all of its burst still to run,
      not started, response time at its sentinel -1 and the other metrics at 0. */
  function Fresh(info: ProcessInfo): (j: Job)
    ensures j.info == info && !j.started
    ensures Finished(j) <==> info.burst <= 0
  {
    Job(info, info.burst, false, -1, 0, 0, 0)
  }

  /** A process is finished once it has no remaining time. */
  predicate Finished(j: Job)
  {
    j.remaining <= 0
  }

  /** The effect of running a process for `slice` units starting at `clock`: the
      response time is recorded on the first run only. */
  function Execute(j: Job, slice: int, clock: int): (r: Job)
    ensures r.info == j.info && r.started
    ensures r.remaining + slice == j.remaining
    ensures Finished(r) <==> j.remaining <= slice
    ensures j.started ==> r.response == j.response
    ensures r.completion == j.completion && r.turnaround == j.turnaround && r.waiting == j.waiting
  {
    var response := if j.started then j.response else clock - j.info.arrival;
    j.(remaining := j.remaining - slice, started := true, response := response)
  }

  /** The final metrics, computed when a process finishes at time `t`. */
  function Finalize(j: Job, t: int): (f: Job)
    ensures f.info == j.info && f.remaining == j.remaining && f.started == j.started && f.response == j.response
    ensures f.completion == t && f.waiting == t - j.info.arrival - j.info.burst
    ensures f.turnaround == f.waiting + j.info.burst
  {
    var turnaround := t - j.info.arrival;
    j.(completion := t, turnaround := turnaround, waiting := turnaround - j.info.burst)
  }

  /** One run of a process: how long it ran and the clock when it started. */
  datatype RunRecord = RunRecord(slice: int, clock: int)

  function SumSlices(ds: seq<RunRecord>): int
  {
    if ds == [] then 0 else ds[0].slice + SumSlices(ds[1..])
  }

  /** The process after running it once for each dispatch of `ds`, in order. */
  function ExecuteAll(j: Job, ds: seq<RunRecord>): Job
    decreases |ds|
  {
    if ds == [] then j else ExecuteAll(Execute(j, ds[0].slice, ds[0].clock), ds[1..])
  }

  /** However many times a process is run, its remaining time drops by exactly the
      sum of the slices, its response time is the one recorded by the first run
      (or kept, if it had already started), and nothing else changes. */
  lemma {:induction false} ExecuteAllSpec(j: Job, ds: seq<RunRecord>)
    requires ds != []
    ensures ExecuteAll(j, ds).info == j.info
    ensures ExecuteAll(j, ds).started
    ensures ExecuteAll(j, ds).remaining == j.remaining - SumSlices(ds)
    ensures ExecuteAll(j, ds).response ==
            if j.started then j.response else ds[0].clock - j.info.arrival
    ensures ExecuteAll(j, ds).completion == j.completion
    ensures ExecuteAll(j, ds).turnaround == j.turnaround
    ensures ExecuteAll(j, ds).waiting == j.waiting
    decreases |ds|
  {
    var j1 := Execute(j, ds[0].slice, ds[0].clock);
    if |ds| > 1 {
      ExecuteAllSpec(j1, ds[1..]);
    } else {
      assert ds[1..] == [];
    }
  }

  /** A process run from its loaded state has finished exactly when its slices
      add up to its whole burst time. */
  lemma RunToCompletion(info: ProcessInfo, ds: seq<RunRecord>)
    requires ds != []
    ensures ExecuteAll(Fresh(info), ds).remaining == 0 <==> SumSlices(ds) == info.burst
    ensures ExecuteAll(Fresh(info), ds).response == ds[0].clock - info.arrival
  {
    ExecuteAllSpec(Fresh(info), ds);
  }

  /** A process object; the scheduler's lists hold references to these. */
  class Process {
    const name: string
    const burst: int
    const arrival: int
    const queue: int
    const priority: int  // carried but never consulted by the scheduler

    var remaining: int
    var started: bool
    var response: int
    var completion: int
    var turnaround: int
    var waiting: int

    function Info(): ProcessInfo
    {
      ProcessInfo(name, burst, arrival, queue, priority)
    }

    ghost function View(): Job
      reads this
    {
      Job(Info(), remaining, started, response, completion, turnaround, waiting)
    }

    constructor (name: string, burst: int, arrival: int, queue: int, priority: int)
      ensures Info() == ProcessInfo(name, burst, arrival, queue, priority)
      ensures View() == Fresh(Info())
    {
      this.name, this.burst, this.arrival, this.queue, this.priority := name, burst, arrival, queue, priority;
      remaining, started := burst, false;
      completion, response, waiting, turnaround := 0, -1, 0, 0;
    }

    /** Runs the process for `slice` units at time `clock`. */
    method Run(slice: int, clock: int)
      modifies this
      ensures remaining == old(remaining) - slice
      ensures started
      ensures response == if old(started) then old(response) else clock - arrival
      ensures completion == old(completion) && turnaround == old(turnaround) && waiting == old(waiting)
      ensures View() == Execute(old(View()), slice, clock)
    {
      if !started {
        response := clock - arrival;
        started := true;
      }
      remaining := remaining - slice;
    }

    /** Records the metrics of a process that finished at time `t`. */
    method ComputeFinalMetrics(t: int)
      modifies this
      ensures completion == t
      ensures turnaround == completion - arrival
      ensures waiting == turnaround - burst
      ensures remaining == old(remaining) && started == old(started) && response == old(response)
      ensures View() == Finalize(old(View()), t)
    {
      completion := t;
      turnaround := completion - arrival;
      waiting := turnaround - burst;
    }

    /** Finished once no time remains. */
    predicate IsFinished()
      reads this
      ensures IsFinished() <==> Finished(View())
    {
      remaining <= 0
    }
  }
}
