/** The dispatch loop of the MLQ simulator as a state machine over snapshots.

    A `State` holds the clock, the arrival-ordered list of processes that have
    not yet been admitted, the three ready queues (1: Round-Robin with quantum 3,
    2: Round-Robin with quantum 5, 3: FCFS), the finished processes in completion
    order, and the processes dropped at admission because their queue id names no
    queue (the simulator keeps no reference to those; the list is here so that
    every process can be accounted for). `Step` is one iteration of the loop and
    `Run` the whole loop. */
module Engine {
  import opened Processes
  import opened Queues

  // ---------------------------------------------------------------------------
  // Queues by id

  predicate KnownQueue(id: int)
  {
    1 <= id <= 3
  }

  /** Queue 1 is Round-Robin with quantum 3, queue 2 with quantum 5, queue 3 FCFS. */
  function PolicyOf(id: int): (p: Policy)
    requires KnownQueue(id)
    ensures p == RR(3) <==> id == 1
    ensures p == RR(5) <==> id == 2
    ensures p == FCFS <==> id == 3
  {
    if id == 1 then RR(3) else if id == 2 then RR(5) else FCFS
  }

  datatype State = State(clock: int, pending: seq<Job>,
                         q1: seq<Job>, q2: seq<Job>, q3: seq<Job>,
                         finished: seq<Job>, dropped: seq<Job>)

  function Queue(s: State, id: int): seq<Job>
    requires KnownQueue(id)
  {
    if id == 1 then s.q1 else if id == 2 then s.q2 else s.q3
  }

  function WithQueue(s: State, id: int, q: seq<Job>): State
    requires KnownQueue(id)
  {
    if id == 1 then s.(q1 := q) else if id == 2 then s.(q2 := q) else s.(q3 := q)
  }

  /** The state right after loading: clock 0, every process pending and fresh. */
  function Load(infos: seq<ProcessInfo>): (s: State)
    ensures s.clock == 0 && !Busy(s) && s.finished == [] && s.dropped == []
    ensures |s.pending| == |infos|
  {
    State(0, seq(|infos|, i requires 0 <= i < |infos| => Fresh(infos[i])), [], [], [], [], [])
  }

  /** The loop condition: something is still to arrive or ready to run. */
  predicate LoopContinues(s: State)
  {
    s.pending != [] || s.q1 != [] || s.q2 != [] || s.q3 != []
  }

  predicate Busy(s: State)
  {
    s.q1 != [] || s.q2 != [] || s.q3 != []
  }

  // ---------------------------------------------------------------------------
  // Admission

  /** Appends a process to the tail of the queue its id names; a process whose id
      names no queue goes nowhere (here: to `dropped`). */
  function Route(s: State, j: Job): (t: State)
    ensures t.clock == s.clock && t.pending == s.pending && t.finished == s.finished
    ensures KnownQueue(j.info.queue) ==>
              Queue(t, j.info.queue) == Queue(s, j.info.queue) + [j] && t.dropped == s.dropped
    ensures forall id :: KnownQueue(id) && id != j.info.queue ==> Queue(t, id) == Queue(s, id)
    ensures !KnownQueue(j.info.queue) ==> t.dropped == s.dropped + [j]
  {
    if KnownQueue(j.info.queue) then WithQueue(s, j.info.queue, Queue(s, j.info.queue) + [j])
    else s.(dropped := s.dropped + [j])
  }

  /** The length of the longest prefix of `pending` that has arrived by `clock`. */
  function ArrivedPrefix(pending: seq<Job>, clock: int): (k: nat)
    ensures k <= |pending|
    ensures forall i :: 0 <= i < k ==> pending[i].info.arrival <= clock
    ensures k < |pending| ==> pending[k].info.arrival > clock
    decreases |pending|
  {
    if pending != [] && pending[0].info.arrival <= clock then 1 + ArrivedPrefix(pending[1..], clock) else 0
  }

  /** The processes of `js` whose queue id is `id`, in their order in `js`. */
  function Routed(js: seq<Job>, id: int): (r: seq<Job>)
    ensures forall i :: 0 <= i < |r| ==> r[i].info.queue == id && r[i] in js
  {
    if js == [] then [] else (if js[0].info.queue == id then [js[0]] else []) + Routed(js[1..], id)
  }

  /** The processes of `js` whose queue id names no queue, in order. */
  function Unrouted(js: seq<Job>): (r: seq<Job>)
    ensures forall i :: 0 <= i < |r| ==> !KnownQueue(r[i].info.queue) && r[i] in js
  {
    if js == [] then [] else (if KnownQueue(js[0].info.queue) then [] else [js[0]]) + Unrouted(js[1..])
  }

  /** Admission: the longest arrived prefix of `pending` leaves it, and its
      processes are appended, in order, to the tails of the queues their ids name. */
  function Admit(s: State): (a: State)
    ensures a.clock == s.clock && a.finished == s.finished
    ensures s.q1 <= a.q1 && s.q2 <= a.q2 && s.q3 <= a.q3 && s.dropped <= a.dropped
    ensures |a.pending| <= |s.pending| && a.pending == s.pending[|s.pending| - |a.pending|..]
    ensures a.pending != [] ==> a.pending[0].info.arrival > s.clock
  {
    var k := ArrivedPrefix(s.pending, s.clock);
    var arrived := s.pending[..k];
    s.(pending := s.pending[k..],
       q1 := s.q1 + Routed(arrived, 1),
       q2 := s.q2 + Routed(arrived, 2),
       q3 := s.q3 + Routed(arrived, 3),
       dropped := s.dropped + Unrouted(arrived))
  }

  /** Moving the arrived head process to its queue and then admitting the rest is
      the same as admitting all at once: the one-at-a-time loop computes Admit. */
  lemma AdmitHead(s: State)
    requires s.pending != [] && s.pending[0].info.arrival <= s.clock
    ensures Admit(s) == Admit(Route(s.(pending := s.pending[1..]), s.pending[0]))
  {
    var j := s.pending[0];
    var s1 := Route(s.(pending := s.pending[1..]), j);
    var k := ArrivedPrefix(s.pending, s.clock);
    var k1 := ArrivedPrefix(s1.pending, s1.clock);
    assert s1.pending == s.pending[1..] && s1.clock == s.clock;
    assert k == 1 + k1;
    var arrived := s.pending[..k];
    var rest := s1.pending[..k1];
    assert arrived == [j] + rest;
    assert s1.pending[k1..] == s.pending[k..];
    RoutedCons(j, rest, 1);
    RoutedCons(j, rest, 2);
    RoutedCons(j, rest, 3);
    UnroutedCons(j, rest);
    var a := Admit(s);
    var b := Admit(s1);
    assert a.pending == b.pending;
    assert a.clock == b.clock && a.finished == b.finished;
    QueuesAfterAdmitHead(s.q1, s1.q1, j, rest, 1);
    QueuesAfterAdmitHead(s.q2, s1.q2, j, rest, 2);
    QueuesAfterAdmitHead(s.q3, s1.q3, j, rest, 3);
    if KnownQueue(j.info.queue) {
      assert s1.dropped == s.dropped;
      assert Unrouted(arrived) == Unrouted(rest);
    } else {
      assert s1.dropped == s.dropped + [j];
      AppendAssoc(s.dropped, [j], Unrouted(rest));
    }
    assert a.q1 == b.q1 && a.q2 == b.q2 && a.q3 == b.q3 && a.dropped == b.dropped;
  }

  lemma QueuesAfterAdmitHead(q: seq<Job>, q': seq<Job>, j: Job, rest: seq<Job>, id: int)
    requires q' == if j.info.queue == id then q + [j] else q
    ensures q + Routed([j] + rest, id) == q' + Routed(rest, id)
  {
    RoutedCons(j, rest, id);
    if j.info.queue == id {
      AppendAssoc(q, [j], Routed(rest, id));
    } else {
      assert Routed([j] + rest, id) == Routed(rest, id);
    }
  }

  lemma AppendAssoc(a: seq<Job>, b: seq<Job>, c: seq<Job>)
    ensures a + (b + c) == (a + b) + c
  {
  }

  lemma RoutedCons(j: Job, rest: seq<Job>, id: int)
    ensures Routed([j] + rest, id) == (if j.info.queue == id then [j] else []) + Routed(rest, id)
  {
    assert ([j] + rest)[1..] == rest;
  }

  lemma UnroutedCons(j: Job, rest: seq<Job>)
    ensures Unrouted([j] + rest) == (if KnownQueue(j.info.queue) then [] else [j]) + Unrouted(rest)
  {
    assert ([j] + rest)[1..] == rest;
  }

  /** When the head has not arrived yet (or nothing is pending) admission changes nothing. */
  lemma AdmitNone(s: State)
    requires !(s.pending != [] && s.pending[0].info.arrival <= s.clock)
    ensures Admit(s) == s
  {
    assert s.pending[..0] == [];
    assert s.pending[0..] == s.pending;
  }

  // ---------------------------------------------------------------------------
  // Selection and dispatch

  /** The id of the queue served next: the first non-empty one in the strict
      order 1, 2, 3, or 0 when all three are empty. */
  function FirstBusy(a: State): (k: int)
    ensures k == 0 <==> !Busy(a)
    ensures k != 0 ==> KnownQueue(k) && Queue(a, k) != [] && forall i :: 1 <= i < k ==> Queue(a, i) == []
  {
    if a.q1 != [] then 1 else if a.q2 != [] then 2 else if a.q3 != [] then 3 else 0
  }

  datatype Pick = NoPick | Picked(rest: State, job: Job, slice: int)

  /** Selection: the head of the first non-empty queue, taken off that queue,
      with the slice that queue's policy gives it. */
  function Select(a: State): (p: Pick)
    ensures p.NoPick? <==> !Busy(a)
    ensures p.Picked? ==>
              var k := FirstBusy(a);
              && p.job == Queue(a, k)[0] && p.slice <= p.job.remaining
              && Queue(p.rest, k) == Queue(a, k)[1..]
              && (forall id :: KnownQueue(id) && id != k ==> Queue(p.rest, id) == Queue(a, id))
              && p.rest.clock == a.clock && p.rest.pending == a.pending && p.rest.finished == a.finished
  {
    var k := FirstBusy(a);
    if k == 0 then NoPick
    else
      var j := Queue(a, k)[0];
      Picked(WithQueue(a, k, Queue(a, k)[1..]), j, NextSlice(PolicyOf(k), j.remaining))
  }

  /** In a consistent state the selected process names a known queue and
      receives a positive slice. */
  lemma SelectedRunnable(a: State)
    requires Inv(a) && Select(a).Picked?
    ensures KnownQueue(Select(a).job.info.queue)
    ensures 0 < Select(a).slice
  {
    var k := FirstBusy(a);
    ReadyOf(a, k);
    ServedJob(Queue(a, k)[0], k, a.clock);
  }

  /** The outcome of one iteration: the loop goes on, or it leaves by `break`. */
  datatype Transition = Continue(state: State) | Stop(state: State)

  /** Nothing was run: the clock jumps to the arrival time of the first pending
      process, or, when nothing is pending, the loop breaks. */
  function Idle(a: State): (t: Transition)
    ensures t.Stop? <==> a.pending == []
    ensures t.state == a.(clock := t.state.clock)
    ensures t.Continue? ==> t.state.clock == a.pending[0].info.arrival
  {
    if a.pending != [] then Continue(a.(clock := a.pending[0].info.arrival)) else Stop(a)
  }

  /** Runs `j` for `slice` units and advances the clock; a finished process gets
      its final metrics and joins `finished`, any other goes back to the tail of
      its queue. */
  function Serve(rest: State, j: Job, slice: int): (t: Transition)
    ensures t.Continue? && t.state.clock == rest.clock + slice && t.state.pending == rest.pending
    ensures rest.finished <= t.state.finished
    ensures |t.state.finished| == |rest.finished| + if Finished(Execute(j, slice, rest.clock)) then 1 else 0
  {
    var ran := Execute(j, slice, rest.clock);
    var t := rest.clock + slice;
    if Finished(ran) then Continue(rest.(clock := t, finished := rest.finished + [Finalize(ran, t)]))
    else Continue(Route(rest.(clock := t), ran))
  }

  /** One iteration of the dispatch loop. A selected process whose slice is not
      positive has already left its queue and is neither run nor put back. */
  function Step(s: State): (t: Transition)
    ensures s.clock <= t.state.clock
    ensures s.finished <= t.state.finished && |t.state.finished| <= |s.finished| + 1
    ensures t.Stop? ==> Admit(s).pending == [] && t.state.pending == []
  {
    var a := Admit(s);
    match Select(a)
    case NoPick => Idle(a)
    case Picked(rest, j, slice) => if slice > 0 then Serve(rest, j, slice) else Idle(rest)
  }

  /** A process whose burst is not positive gets a slice that is not positive
      and is taken off its queue without being run or put back; when nothing is
      pending the loop then breaks, abandoning the work still queued elsewhere. */
  lemma ZeroBurstAbandonsWork(z: Job, w: Job)
    requires z.info.queue == 1 && z.remaining <= 0
    requires w.info.queue == 2
    ensures var s := State(0, [], [z], [w], [], [], []);
            && Step(s).Stop?
            && Step(s).state == State(0, [], [], [w], [], [], [])
  {
    var s := State(0, [], [z], [w], [], [], []);
    assert ArrivedPrefix(s.pending, s.clock) == 0;
    assert Admit(s) == s;
    assert NextSlice(PolicyOf(1), z.remaining) <= 0;
  }

  // ---------------------------------------------------------------------------
  // The invariant of the loop

  predicate Sorted(js: seq<Job>)
  {
    forall i, k :: 0 <= i < k < |js| ==> js[i].info.arrival <= js[k].info.arrival
  }

  /** A process not yet admitted: as loaded, with a positive burst. */
  predicate Waiting(j: Job)
  {
    j.info.burst > 0 && j == Fresh(j.info)
  }

  /** A process ready in queue `id` at time `clock`: it has arrived, it has time
      left, it has started exactly when it has run, its response time leaves room
      for the time it has run since, no final metric is set yet, the time it has
      run is a whole number of quanta in a Round-Robin queue, and a process in the
      FCFS queue has never run. */
  predicate Ready(j: Job, id: int, clock: int)
  {
    && KnownQueue(id)
    && j.info.queue == id
    && 0 < j.remaining <= j.info.burst
    && j.info.arrival <= clock
    && j.started == (j.remaining < j.info.burst)
    && (j.started ==> 0 <= j.response && j.info.arrival + j.response + (j.info.burst - j.remaining) <= clock)
    && (!j.started ==> j.response == -1)
    && j.completion == 0 && j.turnaround == 0 && j.waiting == 0
    && (id == 1 ==> (j.info.burst - j.remaining) % 3 == 0)
    && (id == 2 ==> (j.info.burst - j.remaining) % 5 == 0)
    && (id == 3 ==> !j.started)
  }

  predicate AllReady(js: seq<Job>, id: int, clock: int)
  {
    forall i :: 0 <= i < |js| ==> Ready(js[i], id, clock)
  }

  /** A finished process by time `clock`: all of its burst has run, its
      turnaround and waiting times follow from its completion time, and its
      response time lies between 0 and its waiting time (equal to it in FCFS). */
  predicate Retired(j: Job, clock: int)
  {
    && KnownQueue(j.info.queue)
    && j.info.burst > 0 && j.remaining == 0 && j.started
    && j.completion <= clock
    && j.turnaround == j.completion - j.info.arrival
    && j.waiting == j.turnaround - j.info.burst
    && 0 <= j.response <= j.waiting
    && (j.info.queue == 3 ==> j.response == j.waiting)
  }

  predicate Inv(s: State)
  {
    && Sorted(s.pending)
    && (forall i :: 0 <= i < |s.pending| ==> Waiting(s.pending[i]))
    && AllReady(s.q1, 1, s.clock)
    && AllReady(s.q2, 2, s.clock)
    && AllReady(s.q3, 3, s.clock)
    && (forall i :: 0 <= i < |s.finished| ==> Retired(s.finished[i], s.clock))
    && (forall i :: 0 <= i < |s.dropped| ==> !KnownQueue(s.dropped[i].info.queue))
  }

  lemma InvLater(s: State, c: int)
    requires Inv(s) && s.clock <= c
    ensures Inv(s.(clock := c))
  {
  }

  lemma ReadyOf(s: State, k: int)
    requires Inv(s) && KnownQueue(k)
    ensures AllReady(Queue(s, k), k, s.clock)
  {
  }

  lemma WithQueueInv(s: State, k: int, q: seq<Job>)
    requires Inv(s) && KnownQueue(k) && AllReady(q, k, s.clock)
    ensures Inv(WithQueue(s, k, q))
  {
  }

  lemma RoutedReady(js: seq<Job>, id: int, clock: int)
    requires KnownQueue(id)
    requires forall i :: 0 <= i < |js| ==> Waiting(js[i]) && js[i].info.arrival <= clock
    ensures AllReady(Routed(js, id), id, clock)
  {
    if js != [] {
      RoutedReady(js[1..], id, clock);
    }
  }

  /** What stays pending after admission is still sorted, waiting, and due
      strictly after the clock. */
  lemma PendingSuffix(p: seq<Job>, k: nat, clock: int)
    requires Sorted(p) && forall i :: 0 <= i < |p| ==> Waiting(p[i])
    requires k <= |p| && (k < |p| ==> p[k].info.arrival > clock)
    ensures Sorted(p[k..])
    ensures forall i :: 0 <= i < |p| - k ==> Waiting(p[k..][i]) && p[k..][i].info.arrival > clock
  {
  }

  /** Admission keeps the invariant, and afterwards every process still pending
      arrives strictly after the current clock. */
  lemma AdmitPreservesInv(s: State)
    requires Inv(s)
    ensures Inv(Admit(s))
    ensures forall i :: 0 <= i < |Admit(s).pending| ==> Admit(s).pending[i].info.arrival > s.clock
  {
    var k := ArrivedPrefix(s.pending, s.clock);
    var arrived := s.pending[..k];
    var a := Admit(s);
    assert a.pending == s.pending[k..];
    PendingSuffix(s.pending, k, s.clock);
    assert forall i :: 0 <= i < |arrived| ==> Waiting(arrived[i]) && arrived[i].info.arrival <= s.clock;
    RoutedReady(arrived, 1, s.clock);
    RoutedReady(arrived, 2, s.clock);
    RoutedReady(arrived, 3, s.clock);
    assert AllReady(a.q1, 1, s.clock);
    assert AllReady(a.q2, 2, s.clock);
    assert AllReady(a.q3, 3, s.clock);
  }

  /** The process that is run leaves its run-state consistent: finished, it is
      retired; otherwise it is ready again in its own queue. */
  lemma ServedJob(j: Job, k: int, clock: int)
    requires Ready(j, k, clock)
    ensures var slice := NextSlice(PolicyOf(k), j.remaining);
            var ran := Execute(j, slice, clock);
            && 0 < slice <= j.remaining
            && (Finished(ran) <==> slice == j.remaining)
            && (Finished(ran) ==> Retired(Finalize(ran, clock + slice), clock + slice))
            && (!Finished(ran) ==> Ready(ran, k, clock + slice))
  {
    var slice := NextSlice(PolicyOf(k), j.remaining);
    var ran := Execute(j, slice, clock);
    var done := j.info.burst - j.remaining;
    if k == 1 {
      assert !Finished(ran) ==> slice == 3;
      assert !Finished(ran) ==> done + slice == done + 3;
    } else if k == 2 {
      assert !Finished(ran) ==> slice == 5;
      assert !Finished(ran) ==> done + slice == done + 5;
    } else {
      assert slice == j.remaining;
    }
  }

  /** Dispatch follows the slice plan of the process's queue: the slice it gets
      now is the first one planned for its remaining time, and what remains
      afterwards is planned as the rest of that plan. */
  lemma ServedSlices(j: Job, k: int, clock: int)
    requires Ready(j, k, clock)
    ensures Slices(PolicyOf(k), j.remaining)[0] == NextSlice(PolicyOf(k), j.remaining)
    ensures var slice := NextSlice(PolicyOf(k), j.remaining);
            Slices(PolicyOf(k), Execute(j, slice, clock).remaining) == Slices(PolicyOf(k), j.remaining)[1..]
  {
  }

  lemma ServeKeepsInv(rest: State, j: Job, k: int)
    requires Inv(rest) && Ready(j, k, rest.clock)
    ensures Inv(Serve(rest, j, NextSlice(PolicyOf(k), j.remaining)).state)
  {
    var slice := NextSlice(PolicyOf(k), j.remaining);
    var ran := Execute(j, slice, rest.clock);
    var t := rest.clock + slice;
    ServedJob(j, k, rest.clock);
    InvLater(rest, t);
    var later := rest.(clock := t);
    if !Finished(ran) {
      ReadyOf(later, k);
      WithQueueInv(later, k, Queue(later, k) + [ran]);
    }
  }

  /** Every iteration of the loop keeps the invariant. */
  lemma StepPreservesInv(s: State)
    requires Inv(s)
    ensures Inv(Step(s).state)
  {
    var a := Admit(s);
    AdmitPreservesInv(s);
    var k := FirstBusy(a);
    if k == 0 {
      if a.pending != [] {
        InvLater(a, a.pending[0].info.arrival);
      }
    } else {
      var j := Queue(a, k)[0];
      ReadyOf(a, k);
      var rest := WithQueue(a, k, Queue(a, k)[1..]);
      WithQueueInv(a, k, Queue(a, k)[1..]);
      ServedJob(j, k, a.clock);
      ServeKeepsInv(rest, j, k);
    }
  }

  // ---------------------------------------------------------------------------
  // Accounting: where every process is, and how much work is left

  function Infos(js: seq<Job>): seq<ProcessInfo>
  {
    seq(|js|, i requires 0 <= i < |js| => js[i].info)
  }

  function Bag(js: seq<Job>): multiset<ProcessInfo>
  {
    multiset(Infos(js))
  }

  /** Every process the state knows of, wherever it is. */
  function Population(s: State): multiset<ProcessInfo>
  {
    Bag(s.pending) + Bag(s.q1) + Bag(s.q2) + Bag(s.q3) + Bag(s.finished) + Bag(s.dropped)
  }

  function Pos(x: int): nat
  {
    if x > 0 then x else 0
  }

  function WorkOf(js: seq<Job>): nat
  {
    if js == [] then 0 else Pos(js[0].remaining) + WorkOf(js[1..])
  }

  /** The CPU time still owed to processes that are pending or ready. */
  function Work(s: State): nat
  {
    WorkOf(s.pending) + WorkOf(s.q1) + WorkOf(s.q2) + WorkOf(s.q3)
  }

  /** 1 when the first pending process has not arrived yet. */
  function Gap(s: State): nat
  {
    if s.pending != [] && s.pending[0].info.arrival > s.clock then 1 else 0
  }

  lemma BagAppend(a: seq<Job>, b: seq<Job>)
    ensures Bag(a + b) == Bag(a) + Bag(b)
  {
    assert Infos(a + b) == Infos(a) + Infos(b);
  }

  lemma {:induction false} WorkOfAppend(a: seq<Job>, b: seq<Job>)
    ensures WorkOf(a + b) == WorkOf(a) + WorkOf(b)
    decreases |a|
  {
    if a == [] {
      assert a + b == b;
    } else {
      assert (a + b)[1..] == a[1..] + b;
      WorkOfAppend(a[1..], b);
    }
  }

  lemma BagCons(j: Job, rest: seq<Job>)
    ensures Bag([j] + rest) == multiset{j.info} + Bag(rest)
  {
    assert Infos([j] + rest) == [j.info] + Infos(rest);
  }

  lemma WorkCons(j: Job, rest: seq<Job>)
    ensures WorkOf([j] + rest) == Pos(j.remaining) + WorkOf(rest)
  {
    assert ([j] + rest)[1..] == rest;
  }

  lemma RoutedConsAccount(j: Job, rest: seq<Job>, id: int)
    ensures Bag(Routed([j] + rest, id)) ==
            (if j.info.queue == id then multiset{j.info} else multiset{}) + Bag(Routed(rest, id))
    ensures WorkOf(Routed([j] + rest, id)) ==
            (if j.info.queue == id then Pos(j.remaining) else 0) + WorkOf(Routed(rest, id))
  {
    RoutedCons(j, rest, id);
    if j.info.queue == id {
      BagCons(j, Routed(rest, id));
      WorkCons(j, Routed(rest, id));
    } else {
      assert [] + Routed(rest, id) == Routed(rest, id);
    }
  }

  lemma UnroutedConsAccount(j: Job, rest: seq<Job>)
    ensures Bag(Unrouted([j] + rest)) ==
            (if KnownQueue(j.info.queue) then multiset{} else multiset{j.info}) + Bag(Unrouted(rest))
    ensures WorkOf(Unrouted([j] + rest)) ==
            (if KnownQueue(j.info.queue) then 0 else Pos(j.remaining)) + WorkOf(Unrouted(rest))
  {
    UnroutedCons(j, rest);
    if KnownQueue(j.info.queue) {
      assert [] + Unrouted(rest) == Unrouted(rest);
    } else {
      BagCons(j, Unrouted(rest));
      WorkCons(j, Unrouted(rest));
    }
  }

  /** Routing a list of processes to the queues loses none and duplicates none. */
  lemma {:induction false} RoutedSplit(js: seq<Job>)
    ensures Bag(Routed(js, 1)) + Bag(Routed(js, 2)) + Bag(Routed(js, 3)) + Bag(Unrouted(js)) == Bag(js)
    ensures WorkOf(Routed(js, 1)) + WorkOf(Routed(js, 2)) + WorkOf(Routed(js, 3)) + WorkOf(Unrouted(js)) == WorkOf(js)
    decreases |js|
  {
    if js != [] {
      var j, rest := js[0], js[1..];
      assert js == [j] + rest;
      RoutedSplit(rest);
      BagCons(j, rest);
      WorkCons(j, rest);
      RoutedConsAccount(j, rest, 1);
      RoutedConsAccount(j, rest, 2);
      RoutedConsAccount(j, rest, 3);
      UnroutedConsAccount(j, rest);
    }
  }

  /** Admission moves processes without losing or duplicating any; the work it
      removes is exactly that of the processes it drops. */
  lemma AdmitConserves(s: State)
    ensures Population(Admit(s)) == Population(s)
    ensures Work(Admit(s)) + WorkOf(Unrouted(s.pending[..ArrivedPrefix(s.pending, s.clock)])) == Work(s)
  {
    var k := ArrivedPrefix(s.pending, s.clock);
    var arrived, later := s.pending[..k], s.pending[k..];
    assert s.pending == arrived + later;
    RoutedSplit(arrived);
    BagAppend(arrived, later);
    BagAppend(s.q1, Routed(arrived, 1));
    BagAppend(s.q2, Routed(arrived, 2));
    BagAppend(s.q3, Routed(arrived, 3));
    BagAppend(s.dropped, Unrouted(arrived));
    Regroup(Bag(later), Bag(arrived), Bag(Routed(arrived, 1)), Bag(Routed(arrived, 2)), Bag(Routed(arrived, 3)),
            Bag(Unrouted(arrived)), Bag(s.q1), Bag(s.q2), Bag(s.q3), Bag(s.finished), Bag(s.dropped));
    WorkOfAppend(arrived, later);
    WorkOfAppend(s.q1, Routed(arrived, 1));
    WorkOfAppend(s.q2, Routed(arrived, 2));
    WorkOfAppend(s.q3, Routed(arrived, 3));
  }

  /** Moving the arrived part of the pending bag into the queues and the dropped
      list leaves the total unchanged. */
  lemma Regroup(later: multiset<ProcessInfo>, arrived: multiset<ProcessInfo>,
                r1: multiset<ProcessInfo>, r2: multiset<ProcessInfo>, r3: multiset<ProcessInfo>,
                u: multiset<ProcessInfo>, b1: multiset<ProcessInfo>, b2: multiset<ProcessInfo>,
                b3: multiset<ProcessInfo>, f: multiset<ProcessInfo>, d: multiset<ProcessInfo>)
    requires r1 + r2 + r3 + u == arrived
    ensures later + (b1 + r1) + (b2 + r2) + (b3 + r3) + f + (d + u) == (arrived + later) + b1 + b2 + b3 + f + d
  {
  }

  lemma ClockAccount(s: State, c: int)
    ensures Population(s.(clock := c)) == Population(s)
    ensures Work(s.(clock := c)) == Work(s)
  {
    var t := s.(clock := c);
    assert t.pending == s.pending && t.q1 == s.q1 && t.q2 == s.q2 && t.q3 == s.q3;
    assert t.finished == s.finished && t.dropped == s.dropped;
  }

  lemma FinishAccount(s: State, f: Job, c: int)
    ensures Population(s.(clock := c, finished := s.finished + [f])) == Population(s) + multiset{f.info}
    ensures Work(s.(clock := c, finished := s.finished + [f])) == Work(s)
  {
    var t := s.(clock := c, finished := s.finished + [f]);
    BagAppend(s.finished, [f]);
    assert Infos([f]) == [f.info];
    assert Bag(t.finished) == Bag(s.finished) + multiset{f.info};
    assert t.pending == s.pending && t.q1 == s.q1 && t.q2 == s.q2 && t.q3 == s.q3 && t.dropped == s.dropped;
    assert Population(t) == Bag(s.pending) + Bag(s.q1) + Bag(s.q2) + Bag(s.q3)
                            + (Bag(s.finished) + multiset{f.info}) + Bag(s.dropped);
  }

  lemma BagSnoc(q: seq<Job>, j: Job)
    ensures Bag(q + [j]) == Bag(q) + multiset{j.info}
    ensures WorkOf(q + [j]) == WorkOf(q) + Pos(j.remaining)
  {
    BagAppend(q, [j]);
    assert Infos([j]) == [j.info];
    WorkOfAppend(q, [j]);
    assert WorkOf([j]) == Pos(j.remaining) by {
      assert [j][1..] == [];
    }
  }

  /** One more element in any one of six parts is one more in their sum. */
  lemma OneMore<T>(a: multiset<T>, b: multiset<T>, c: multiset<T>,
                   d: multiset<T>, e: multiset<T>, f: multiset<T>, x: T)
    ensures (a + multiset{x}) + b + c + d + e + f == a + b + c + d + e + f + multiset{x}
    ensures a + (b + multiset{x}) + c + d + e + f == a + b + c + d + e + f + multiset{x}
    ensures a + b + (c + multiset{x}) + d + e + f == a + b + c + d + e + f + multiset{x}
    ensures a + b + c + (d + multiset{x}) + e + f == a + b + c + d + e + f + multiset{x}
    ensures a + b + c + d + (e + multiset{x}) + f == a + b + c + d + e + f + multiset{x}
    ensures a + b + c + d + e + (f + multiset{x}) == a + b + c + d + e + f + multiset{x}
  {
  }

  lemma RouteAccount(s: State, j: Job)
    requires KnownQueue(j.info.queue)
    ensures Population(Route(s, j)) == Population(s) + multiset{j.info}
    ensures Work(Route(s, j)) == Work(s) + Pos(j.remaining)
  {
    var k, x := j.info.queue, j.info;
    BagSnoc(Queue(s, k), j);
    var p, b1, b2, b3, f, d := Bag(s.pending), Bag(s.q1), Bag(s.q2), Bag(s.q3), Bag(s.finished), Bag(s.dropped);
    OneMore(p, b1, b2, b3, f, d, x);
    var t := Route(s, j);
    if k == 1 {
      assert Population(t) == p + (b1 + multiset{x}) + b2 + b3 + f + d;
    } else if k == 2 {
      assert Population(t) == p + b1 + (b2 + multiset{x}) + b3 + f + d;
    } else {
      assert Population(t) == p + b1 + b2 + (b3 + multiset{x}) + f + d;
    }
  }

  /** Serving a process for a positive slice no longer than its remaining time
      keeps it in the population and takes exactly the slice off the work. */
  lemma ServeAccount(rest: State, j: Job, slice: int)
    requires KnownQueue(j.info.queue) && 0 < slice <= j.remaining
    ensures Population(Serve(rest, j, slice).state) == Population(rest) + multiset{j.info}
    ensures Work(Serve(rest, j, slice).state) + slice == Work(rest) + j.remaining
    ensures Serve(rest, j, slice).state.clock == rest.clock + slice
    ensures Serve(rest, j, slice).state.pending == rest.pending
  {
    var ran := Execute(j, slice, rest.clock);
    var t := rest.clock + slice;
    assert ran.info == j.info && ran.remaining == j.remaining - slice;
    if Finished(ran) {
      var f := Finalize(ran, t);
      assert Serve(rest, j, slice).state == rest.(clock := t, finished := rest.finished + [f]);
      FinishAccount(rest, f, t);
    } else {
      var later := rest.(clock := t);
      assert Serve(rest, j, slice).state == Route(later, ran);
      ClockAccount(rest, t);
      RouteAccount(later, ran);
      assert Pos(ran.remaining) == j.remaining - slice;
    }
  }

  /** Taking the head off a queue removes its process and its work. */
  lemma TakeHeadAccount(a: State, k: int)
    requires KnownQueue(k) && Queue(a, k) != []
    ensures var rest := WithQueue(a, k, Queue(a, k)[1..]);
            && Population(a) == Population(rest) + multiset{Queue(a, k)[0].info}
            && Work(a) == Work(rest) + Pos(Queue(a, k)[0].remaining)
            && rest.clock == a.clock && rest.pending == a.pending
  {
    var q := Queue(a, k);
    var rest := WithQueue(a, k, q[1..]);
    assert q == [q[0]] + q[1..];
    BagCons(q[0], q[1..]);
    WorkCons(q[0], q[1..]);
    var x := q[0].info;
    assert Bag(q) == Bag(q[1..]) + multiset{x};
    var p, b1, b2, b3, f, d := Bag(a.pending), Bag(a.q1), Bag(a.q2), Bag(a.q3), Bag(a.finished), Bag(a.dropped);
    var r := Bag(q[1..]);
    OneMore(p, if k == 1 then r else b1, if k == 2 then r else b2, if k == 3 then r else b3, f, d, x);
    if k == 1 {
      assert Population(rest) == p + r + b2 + b3 + f + d;
    } else if k == 2 {
      assert Population(rest) == p + b1 + r + b3 + f + d;
    } else {
      assert Population(rest) == p + b1 + b2 + r + f + d;
    }
  }

  /** The two ways an iteration from a consistent state goes: nothing is ready
      and the loop idles (or breaks), or the head of the first non-empty queue is
      run for a positive slice. */
  lemma StepCases(s: State)
    requires Inv(s)
    ensures var a := Admit(s);
            var k := FirstBusy(a);
            && (k == 0 ==> Step(s) == Idle(a))
            && (k != 0 ==>
                  var j := Queue(a, k)[0];
                  && Ready(j, k, a.clock)
                  && Step(s) == Serve(WithQueue(a, k, Queue(a, k)[1..]), j, NextSlice(PolicyOf(k), j.remaining)))
  {
    var a := Admit(s);
    AdmitPreservesInv(s);
    var k := FirstBusy(a);
    if k != 0 {
      var j := Queue(a, k)[0];
      ReadyOf(a, k);
      ServedJob(j, k, a.clock);
      assert Select(a) == Picked(WithQueue(a, k, Queue(a, k)[1..]), j, NextSlice(PolicyOf(k), j.remaining));
    }
  }

  /** Every iteration of the loop keeps each process in exactly one place. */
  lemma StepConserves(s: State)
    requires Inv(s)
    ensures Population(Step(s).state) == Population(s)
  {
    var a := Admit(s);
    AdmitConserves(s);
    StepCases(s);
    var k := FirstBusy(a);
    if k == 0 {
      if a.pending != [] {
        ClockAccount(a, a.pending[0].info.arrival);
      }
    } else {
      var j := Queue(a, k)[0];
      ServedJob(j, k, a.clock);
      var rest := WithQueue(a, k, Queue(a, k)[1..]);
      TakeHeadAccount(a, k);
      ServeAccount(rest, j, NextSlice(PolicyOf(k), j.remaining));
    }
  }

  // ---------------------------------------------------------------------------
  // What one iteration does to the clock, the queues and the finished list

  /** The loop breaks exactly when, after admission, nothing is pending or
      ready; otherwise running a process advances the clock by exactly the work
      it removes, and idling jumps the clock forward to the next arrival. */
  lemma StepClock(s: State)
    requires Inv(s)
    ensures Step(s).Stop? <==> !LoopContinues(Admit(s))
    ensures Step(s).Stop? ==> Step(s).state == Admit(s)
    ensures Busy(Admit(s)) ==>
              && Step(s).state.pending == Admit(s).pending
              && s.clock < Step(s).state.clock
              && Step(s).state.clock - s.clock == Work(Admit(s)) - Work(Step(s).state)
    ensures !Busy(Admit(s)) && Admit(s).pending != [] ==>
              && Step(s).state == Admit(s).(clock := Admit(s).pending[0].info.arrival)
              && s.clock < Step(s).state.clock
  {
    var a := Admit(s);
    AdmitPreservesInv(s);
    StepCases(s);
    var k := FirstBusy(a);
    if k != 0 {
      var j := Queue(a, k)[0];
      ServedJob(j, k, a.clock);
      var rest := WithQueue(a, k, Queue(a, k)[1..]);
      TakeHeadAccount(a, k);
      ServeAccount(rest, j, NextSlice(PolicyOf(k), j.remaining));
    }
  }

  /** The loop's measure: remaining work, then the number of processes still to
      arrive, then whether the clock has still to jump to the next arrival. */
  predicate Below(t: State, s: State)
  {
    || Work(t) < Work(s)
    || (Work(t) == Work(s) && |t.pending| < |s.pending|)
    || (Work(t) == Work(s) && |t.pending| == |s.pending| && Gap(t) < Gap(s))
  }

  /** Every iteration that does not break makes progress in that measure. */
  lemma StepDecreases(s: State)
    requires Inv(s) && Step(s).Continue?
    ensures Below(Step(s).state, s)
  {
    AdmitConserves(s);
    StepClock(s);
    if Busy(Admit(s)) {
      assert Work(Step(s).state) < Work(s);
    } else {
      IdleDecreases(s);
    }
  }

  /** An idle iteration loses exactly the work of the processes admission
      drops, and either admits some process or closes the gap to the next
      arrival. */
  lemma IdleDecreases(s: State)
    requires Inv(s) && !Busy(Admit(s)) && Admit(s).pending != []
    ensures Work(Step(s).state) + WorkOf(Unrouted(s.pending[..ArrivedPrefix(s.pending, s.clock)])) == Work(s)
    ensures Below(Step(s).state, s)
  {
    var a := Admit(s);
    var k := ArrivedPrefix(s.pending, s.clock);
    AdmitConserves(s);
    StepClock(s);
    var t := Step(s).state;
    assert t == a.(clock := a.pending[0].info.arrival);
    ClockAccount(a, a.pending[0].info.arrival);
    if k == 0 {
      AdmitNone(s);
      assert Gap(s) == 1 && Gap(t) == 0;
    } else {
      assert |t.pending| < |s.pending|;
    }
  }

  /** Strict priority: the process run is the head of the first non-empty queue
      in the order 1, 2, 3; it runs for the slice its queue's policy gives it;
      the other queues and the pending list are untouched; and it either
      retires, with its final metrics taken at the new clock, or goes back to
      the tail of its own queue. */
  lemma StrictPriority(s: State)
    requires Inv(s) && Busy(Admit(s))
    ensures var a := Admit(s);
            var k := FirstBusy(a);
            var j := Queue(a, k)[0];
            var slice := NextSlice(PolicyOf(k), j.remaining);
            var ran := Execute(j, slice, a.clock);
            var t := Step(s).state;
            && Step(s).Continue?
            && (forall i :: 1 <= i < k ==> Queue(a, i) == [])
            && 0 < slice <= j.remaining
            && t.clock == s.clock + slice
            && t.pending == a.pending && t.dropped == a.dropped
            && (forall i :: KnownQueue(i) && i != k ==> Queue(t, i) == Queue(a, i))
            && (Finished(ran) ==> Queue(t, k) == Queue(a, k)[1..] && t.finished == a.finished + [Finalize(ran, t.clock)])
            && (!Finished(ran) ==> Queue(t, k) == Queue(a, k)[1..] + [ran] && t.finished == a.finished)
  {
    var a := Admit(s);
    StepCases(s);
    var k := FirstBusy(a);
    var j := Queue(a, k)[0];
    ServedJob(j, k, a.clock);
  }

  /** The finished list only grows at its end, by at most one process per
      iteration, and a process joins it with its completion time equal to the
      clock at that moment. */
  lemma FinishedGrows(s: State)
    requires Inv(s)
    ensures var t := Step(s).state;
            && s.finished <= t.finished
            && |t.finished| <= |s.finished| + 1
            && (|t.finished| == |s.finished| + 1 ==> t.finished[|s.finished|].completion == t.clock)
  {
    var a := Admit(s);
    StepCases(s);
    var k := FirstBusy(a);
    if k != 0 {
      var j := Queue(a, k)[0];
      ServedJob(j, k, a.clock);
    }
  }

  // ---------------------------------------------------------------------------
  // The whole loop

  /** The dispatch loop run to its end: it ends in a consistent state with
      nothing pending or ready, loses and duplicates no process, never moves the
      clock back, and only appends to the finished list. */
  function Run(s: State): (r: State)
    requires Inv(s)
    ensures Inv(r) && !LoopContinues(r)
    ensures Population(r) == Population(s)
    ensures s.clock <= r.clock
    ensures s.finished <= r.finished
    decreases Work(s), |s.pending|, Gap(s)
  {
    if !LoopContinues(s) then s
    else
      RunStep(s);
      match Step(s)
      case Stop(u) => u
      case Continue(u) => Run(u)
  }

  /** What one iteration of the loop gives `Run`: the invariant, the population,
      the clock and the finished list are kept, a breaking iteration leaves
      nothing to do, and a continuing one makes progress. */
  lemma RunStep(s: State)
    requires Inv(s) && LoopContinues(s)
    ensures var t := Step(s).state;
            && Inv(t) && Population(t) == Population(s)
            && s.clock <= t.clock && s.finished <= t.finished
            && (Step(s).Stop? ==> !LoopContinues(t))
            && (Step(s).Continue? ==> Below(t, s))
  {
    StepPreservesInv(s);
    StepConserves(s);
    StepClock(s);
    FinishedGrows(s);
    if Step(s).Continue? {
      StepDecreases(s);
    }
  }

  /** How the loop unfolds: it stops at once when nothing is left, it stops
      after one iteration that breaks, and otherwise it goes on from where that
      iteration left off. */
  lemma RunUnfold(s: State)
    requires Inv(s)
    ensures !LoopContinues(s) ==> Run(s) == s
    ensures LoopContinues(s) && Step(s).Stop? ==> Run(s) == Step(s).state
    ensures LoopContinues(s) && Step(s).Continue? ==> Inv(Step(s).state) && Run(s) == Run(Step(s).state)
  {
    if LoopContinues(s) {
      StepPreservesInv(s);
    }
  }

  /** Reordering or replacing the finished list with retired processes keeps
      the invariant. */
  lemma InvFinished(s: State, f: seq<Job>)
    requires Inv(s)
    requires forall i :: 0 <= i < |f| ==> Retired(f[i], s.clock)
    ensures Inv(s.(finished := f))
  {
  }

  /** When every pending process has already arrived and names a known queue,
      the CPU never idles: the loop ends exactly when all the outstanding work
      has run. */
  lemma {:induction false} RunWithoutIdle(s: State)
    requires Inv(s)
    requires forall i :: 0 <= i < |s.pending| ==> s.pending[i].info.arrival <= s.clock
    requires forall i :: 0 <= i < |s.pending| ==> KnownQueue(s.pending[i].info.queue)
    ensures Run(s).clock == s.clock + Work(s)
    decreases Work(s), |s.pending|, Gap(s)
  {
    RunUnfold(s);
    if LoopContinues(s) {
      AdmitAll(s);
      StepClock(s);
      if Busy(Admit(s)) {
        StepDecreases(s);
        RunWithoutIdle(Step(s).state);
      }
    }
  }

  /** When every pending process has arrived and names a known queue, admission
      empties the pending list into the queues and keeps all the work. */
  lemma AdmitAll(s: State)
    requires forall i :: 0 <= i < |s.pending| ==> s.pending[i].info.arrival <= s.clock
    requires forall i :: 0 <= i < |s.pending| ==> KnownQueue(s.pending[i].info.queue)
    ensures Admit(s).pending == [] && Work(Admit(s)) == Work(s)
  {
    var k := ArrivedPrefix(s.pending, s.clock);
    assert k == |s.pending|;
    UnroutedNone(s.pending[..k]);
    AdmitConserves(s);
  }

  lemma {:induction false} UnroutedNone(js: seq<Job>)
    requires forall i :: 0 <= i < |js| ==> KnownQueue(js[i].info.queue)
    ensures Unrouted(js) == []
    decreases |js|
  {
    if js != [] {
      UnroutedNone(js[1..]);
    }
  }

  /** Inputs the loader can produce for the loop: sorted by arrival time, each
      with a positive burst. */
  predicate Loadable(infos: seq<ProcessInfo>)
  {
    && (forall i, k :: 0 <= i < k < |infos| ==> infos[i].arrival <= infos[k].arrival)
    && (forall i :: 0 <= i < |infos| ==> infos[i].burst > 0)
  }

  /** The loader keeps every record, in input order. */
  lemma LoadKeepsInfos(infos: seq<ProcessInfo>)
    ensures Infos(Load(infos).pending) == infos
  {
  }

  lemma LoadInv(infos: seq<ProcessInfo>)
    requires Loadable(infos)
    ensures Inv(Load(infos))
    ensures Population(Load(infos)) == multiset(infos)
  {
    assert Infos(Load(infos).pending) == infos;
  }

  /** A whole simulation from loading: every loaded process ends up either
      finished, with consistent metrics, or dropped at admission because its
      queue id names no queue, and none is lost or counted twice; when every
      queue id is known, every process finishes. */
  lemma RunAccounts(infos: seq<ProcessInfo>)
    requires Loadable(infos)
    ensures var r := Run(Load(infos));
            && Bag(r.finished) + Bag(r.dropped) == multiset(infos)
            && (forall i :: 0 <= i < |r.finished| ==> Retired(r.finished[i], r.clock))
            && ((forall i :: 0 <= i < |infos| ==> KnownQueue(infos[i].queue)) ==> r.dropped == [])
  {
    LoadInv(infos);
    var r := Run(Load(infos));
    assert Population(r) == Bag(r.finished) + Bag(r.dropped);
    if forall i :: 0 <= i < |infos| ==> KnownQueue(infos[i].queue) {
      NothingDropped(r.dropped, infos);
    }
  }

  lemma HeadInBag(js: seq<Job>)
    requires js != []
    ensures js[0].info in Bag(js)
  {
    assert Infos(js)[0] == js[0].info;
  }

  /** Processes with unknown queue ids cannot come from inputs that name only
      known ones. */
  lemma NothingDropped(js: seq<Job>, infos: seq<ProcessInfo>)
    requires forall i :: 0 <= i < |js| ==> !KnownQueue(js[i].info.queue)
    requires forall i :: 0 <= i < |infos| ==> KnownQueue(infos[i].queue)
    requires Bag(js) <= multiset(infos)
    ensures js == []
  {
    if js != [] {
      HeadInBag(js);
    }
  }

  /** The example input mlq001: five processes arriving at time 0. */
  function Sample(): seq<ProcessInfo>
  {
    [ ProcessInfo("A", 6, 0, 1, 5), ProcessInfo("B", 9, 0, 1, 4),
      ProcessInfo("C", 10, 0, 2, 3), ProcessInfo("D", 15, 0, 2, 3),
      ProcessInfo("E", 8, 0, 3, 2) ]
  }

  /** The example input is loadable, all of it arrives at time 0 into known
      queues, and it holds 48 units of work. */
  lemma SampleWork()
    ensures Loadable(Sample())
    ensures Work(Load(Sample())) == 48
    ensures forall i :: 0 <= i < |Load(Sample()).pending| ==>
              Load(Sample()).pending[i].info.arrival <= 0 && KnownQueue(Load(Sample()).pending[i].info.queue)
  {
    var infos := Sample();
    var p := Load(infos).pending;
    assert p == [Fresh(infos[0]), Fresh(infos[1]), Fresh(infos[2]), Fresh(infos[3]), Fresh(infos[4])];
    assert WorkOf(p[4..]) == 8 by {
      assert p[4..][1..] == [];
    }
    assert p[3..][1..] == p[4..];
    assert p[2..][1..] == p[3..];
    assert p[1..][1..] == p[2..];
    assert p[0..] == p;
  }

  /** A batch that arrives all at once into known queues finishes completely,
      and the simulation ends when the sum of the bursts has run. */
  lemma AllAtOnce(infos: seq<ProcessInfo>)
    requires Loadable(infos)
    requires forall i :: 0 <= i < |infos| ==> infos[i].arrival <= 0 && KnownQueue(infos[i].queue)
    ensures Run(Load(infos)).clock == Work(Load(infos))
    ensures Bag(Run(Load(infos)).finished) == multiset(infos)
  {
    var s := Load(infos);
    LoadInv(infos);
    RunAccounts(infos);
    assert forall i :: 0 <= i < |s.pending| ==> s.pending[i].info == infos[i];
    RunWithoutIdle(s);
    assert Infos(Run(s).dropped) == [];
  }

  /** On the example input every process finishes and the simulation ends at
      time 48, the sum of the bursts. */
  lemma SampleRun()
    ensures Run(Load(Sample())).clock == 48
    ensures Bag(Run(Load(Sample())).finished) == multiset(Sample())
  {
    SampleWork();
    AllAtOnce(Sample());
  }
}
