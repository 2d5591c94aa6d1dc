/** The simulator object: the clock, the pending list, the three ready queues
    and the finished list, updated in place by the dispatch loop. Each method is
    proved against the dispatch engine through `Abs`, the snapshot of the
    object graph. */
module Simulator {
  import opened Processes
  import opened Queues
  import opened Engine
  import opened Ordering

  /** The snapshots of a list of processes. */
  ghost function Views(ps: seq<Process>): (r: seq<Job>)
    reads ps
    ensures |r| == |ps|
    ensures forall i :: 0 <= i < |ps| ==> r[i] == ps[i].View()
  {
    seq(|ps|, i requires 0 <= i < |ps| reads ps => ps[i].View())
  }

  lemma ViewsTail(ps: seq<Process>)
    requires ps != []
    ensures Views(ps[1..]) == Views(ps)[1..]
  {
  }

  lemma HeadSplit(ps: seq<Process>)
    requires ps != []
    ensures multiset(ps) == multiset(ps[1..]) + multiset{ps[0]}
  {
    assert ps == [ps[0]] + ps[1..];
  }

  lemma ViewsSnoc(ps: seq<Process>, p: Process)
    ensures Views(ps + [p]) == Views(ps) + [p.View()]
  {
  }

  /** Snapshots depend only on the processes they are taken of. */
  twostate lemma ViewsUnchanged(ps: seq<Process>)
    requires forall p | p in ps :: unchanged(p)
    ensures Views(ps) == old(Views(ps))
  {
    forall i | 0 <= i < |ps|
      ensures Views(ps)[i] == old(Views(ps))[i]
    {
      assert ps[i] in ps;
    }
  }

  /** No process is counted twice. */
  ghost predicate NoDuplicates(m: multiset<Process>)
  {
    forall p | p in m :: m[p] <= 1
  }

  /** A process taken out of a collection without duplicates is no longer in
      what is left. */
  lemma TakenOut(all: multiset<Process>, rest: multiset<Process>, p: Process)
    requires NoDuplicates(all)
    requires all == rest + multiset{p}
    ensures p !in rest
    ensures NoDuplicates(rest)
  {
    assert p in all;
    forall x | x in rest
      ensures rest[x] <= 1
    {
      assert x in all;
    }
  }

  /** What is in none of six parts' sum is in none of them. */
  lemma Outside<T>(x: T, a: seq<T>, b: seq<T>, c: seq<T>, d: seq<T>, e: seq<T>, f: seq<T>)
    requires x !in multiset(a) + multiset(b) + multiset(c) + multiset(d) + multiset(e) + multiset(f)
    ensures x !in a && x !in b && x !in c && x !in d && x !in e && x !in f
  {
  }

  /** Admitting the head and then the rest admits the same as admitting all. */
  lemma AdmitOne(s: State, t: State)
    requires s.pending != [] && s.pending[0].info.arrival <= s.clock
    requires t == Route(s.(pending := s.pending[1..]), s.pending[0])
    ensures Admit(t) == Admit(s)
  {
    AdmitHead(s);
  }

  /** Serving a process: running it, then retiring it when it has finished or
      requeueing it otherwise. */
  lemma ServeOutcome(rest: State, j: Job, slice: int, mid: State, ran: Job, t: State)
    requires mid == rest.(clock := rest.clock + slice) && ran == Execute(j, slice, rest.clock)
    requires Finished(ran) ==> t == mid.(finished := mid.finished + [Finalize(ran, mid.clock)])
    requires !Finished(ran) ==> t == Route(mid, ran)
    ensures t == Serve(rest, j, slice).state
  {
  }

  /** One iteration of the dispatch loop put together from its parts: `a` is
      the state after admission, `u` the state after selection, `ran` whether a
      process was run, and `t` the state the iteration ends in. */
  lemma StepOutcome(s: State, a: State, u: State, t: State, ran: bool, halt: bool)
    requires a == Admit(s)
    requires Select(a).NoPick? ==> u == a && !ran
    requires Select(a).Picked? ==> u == Select(a).rest && (ran <==> Select(a).slice > 0)
    requires ran ==> t == Serve(u, Select(a).job, Select(a).slice).state && !halt
    requires !ran && u.pending != [] ==> t == u.(clock := u.pending[0].info.arrival) && !halt
    requires !ran && u.pending == [] ==> t == u && halt
    ensures t == Step(s).state
    ensures halt <==> Step(s).Stop?
  {
  }

  /** The inputs of a list of processes. */
  function InfosOf(ps: seq<Process>): (r: seq<ProcessInfo>)
    ensures |r| == |ps|
    ensures forall i :: 0 <= i < |ps| ==> r[i] == ps[i].Info()
  {
    seq(|ps|, i requires 0 <= i < |ps| => ps[i].Info())
  }

  lemma DistinctCount(ps: seq<Process>)
    requires forall i, k :: 0 <= i < k < |ps| ==> ps[i] != ps[k]
    ensures NoDuplicates(multiset(ps))
  {
    forall p | p in multiset(ps)
      ensures multiset(ps)[p] <= 1
    {
      DistinctOnce(ps, p);
    }
  }

  lemma {:induction false} DistinctOnce(ps: seq<Process>, p: Process)
    requires forall i, k :: 0 <= i < k < |ps| ==> ps[i] != ps[k]
    ensures multiset(ps)[p] <= 1
    decreases |ps|
  {
    if ps != [] {
      DistinctOnce(ps[1..], p);
      HeadSplit(ps);
      if ps[0] == p {
        assert p !in ps[1..];
      }
    }
  }

  /** The pending list the loader builds from the processes it created. */
  lemma Loaded(created: seq<Process>, pending: seq<Process>)
    requires pending == SortByArrival(created)
    requires forall k :: 0 <= k < |created| ==> created[k].View() == Fresh(created[k].Info())
    requires forall k, l :: 0 <= k < l < |created| ==> created[k] != created[l]
    ensures ByArrival(pending) && multiset(pending) == multiset(created)
    ensures ByArrival(created) ==> pending == created
    ensures NoDuplicates(multiset(pending))
    ensures Engine.Load(InfosOf(pending)) == State(0, Views(pending), [], [], [], [], [])
    ensures (forall k :: 0 <= k < |created| ==> created[k].burst > 0) ==>
              Inv(State(0, Views(pending), [], [], [], [], []))
  {
    SortByArrivalSorted(created);
    if ByArrival(created) {
      SortByArrivalKeepsOrder(created);
    }
    PermutedFresh(created, pending);
    FreshViews(pending);
    DistinctCount(created);
    if forall k :: 0 <= k < |created| ==> created[k].burst > 0 {
      LoadableOf(created, pending);
      LoadInv(InfosOf(pending));
    }
  }

  /** Processes as freshly loaded have the snapshots the loaded state holds. */
  lemma FreshViews(ps: seq<Process>)
    requires forall k :: 0 <= k < |ps| ==> ps[k].View() == Fresh(ps[k].Info())
    ensures Views(ps) == Engine.Load(InfosOf(ps)).pending
  {
    var v, w := Views(ps), Engine.Load(InfosOf(ps)).pending;
    forall i | 0 <= i < |v|
      ensures v[i] == w[i]
    {
    }
  }

  /** Reordering a list of freshly loaded processes keeps each one as loaded. */
  lemma PermutedFresh(a: seq<Process>, b: seq<Process>)
    requires multiset(a) == multiset(b)
    requires forall i :: 0 <= i < |a| ==> a[i].View() == Fresh(a[i].Info())
    ensures forall i :: 0 <= i < |b| ==> b[i].View() == Fresh(b[i].Info())
  {
    forall i | 0 <= i < |b|
      ensures b[i].View() == Fresh(b[i].Info())
    {
      assert b[i] in multiset(a);
      var k :| 0 <= k < |a| && a[k] == b[i];
    }
  }

  /** Processes in arrival order whose loaded records all have positive bursts
      are loadable. */
  lemma LoadableOf(a: seq<Process>, b: seq<Process>)
    requires multiset(a) == multiset(b) && ByArrival(b)
    requires forall i :: 0 <= i < |a| ==> a[i].burst > 0
    ensures Loadable(InfosOf(b))
  {
    forall i | 0 <= i < |b|
      ensures b[i].burst > 0
    {
      assert b[i] in multiset(a);
      var k :| 0 <= k < |a| && a[k] == b[i];
    }
  }

  /** Reordering a list of retired processes keeps them retired. */
  lemma PermutedRetired(a: seq<Process>, b: seq<Process>, clock: int)
    requires multiset(a) == multiset(b)
    requires forall i :: 0 <= i < |a| ==> Retired(a[i].View(), clock)
    ensures forall i :: 0 <= i < |b| ==> Retired(b[i].View(), clock)
  {
    forall i | 0 <= i < |b|
      ensures Retired(b[i].View(), clock)
    {
      assert b[i] in multiset(a);
      var k :| 0 <= k < |a| && a[k] == b[i];
    }
  }

  /** One new process per record, in record order, each as freshly loaded. */
  method Spawn(infos: seq<ProcessInfo>) returns (ps: seq<Process>)
    ensures InfosOf(ps) == infos
    ensures forall k :: 0 <= k < |ps| ==> fresh(ps[k]) && ps[k].View() == Fresh(ps[k].Info())
    ensures forall k, l :: 0 <= k < l < |ps| ==> ps[k] != ps[l]
  {
    ps := [];
    var i := 0;
    while i < |infos|
      invariant 0 <= i <= |infos| && |ps| == i
      invariant forall k :: 0 <= k < i ==> fresh(ps[k])
      invariant forall k :: 0 <= k < i ==> ps[k].Info() == infos[k] && ps[k].View() == Fresh(infos[k])
      invariant forall k, l :: 0 <= k < l < i ==> ps[k] != ps[l]
    {
      var p := new Process(infos[i].name, infos[i].burst, infos[i].arrival, infos[i].queue, infos[i].priority);
      ps := ps + [p];
      i := i + 1;
    }
  }

  class Scheduler {
    const q1: ReadyQueue
    const q2: ReadyQueue
    const q3: ReadyQueue
    var clock: int
    var pending: seq<Process>
    var finished: seq<Process>
    /** The processes admitted with a queue id that names no queue; the
        simulator keeps no reference to them. */
    ghost var dropped: seq<Process>

    /** Every process the simulator knows of, wherever it is. */
    ghost function Members(): multiset<Process>
      reads this, q1, q2, q3
    {
      multiset(pending) + multiset(q1.items) + multiset(q2.items) + multiset(q3.items)
        + multiset(finished) + multiset(dropped)
    }

    /** `p` is held in none of the simulator's lists. */
    ghost predicate Detached(p: Process)
      reads this, q1, q2, q3
    {
      && p !in pending && p !in q1.items && p !in q2.items && p !in q3.items
      && p !in finished && p !in dropped
    }

    ghost function Abs(): State
      reads this, q1, q2, q3, pending, q1.items, q2.items, q3.items, finished, dropped
    {
      State(clock, Views(pending), Views(q1.items), Views(q2.items), Views(q3.items),
            Views(finished), Views(dropped))
    }

    /** Queue 1 is Round-Robin with quantum 3, queue 2 with quantum 5, queue 3 FCFS. */
    predicate QueuesOk()
    {
      && q1 != q2 && q1 != q3 && q2 != q3
      && q1.policy == RR(3) && q2.policy == RR(5) && q3.policy == FCFS
    }

    /** Each process sits in exactly one place, and the snapshot is a
        consistent state of the dispatch loop. */
    ghost predicate Valid()
      reads this, q1, q2, q3, pending, q1.items, q2.items, q3.items, finished, dropped
    {
      QueuesOk() && NoDuplicates(Members()) && Inv(Abs())
    }

    /** The queue a known id names. */
    function QueueFor(id: int): (q: ReadyQueue)
      requires KnownQueue(id)
      ensures QueuesOk() ==> q.policy == PolicyOf(id)
    {
      if id == 1 then q1 else if id == 2 then q2 else q3
    }

    constructor ()
      ensures fresh(q1) && fresh(q2) && fresh(q3)
      ensures Valid()
      ensures clock == 0 && pending == [] && finished == [] && dropped == []
      ensures q1.items == [] && q2.items == [] && q3.items == []
      ensures Abs() == State(0, [], [], [], [], [], [])
    {
      q1 := new ReadyQueue(RR(3));
      q2 := new ReadyQueue(RR(5));
      q3 := new ReadyQueue(FCFS);
      clock := 0;
      pending := [];
      finished := [];
      dropped := [];
      new;
      assert Abs() == State(0, [], [], [], [], [], []);
      assert Members() == multiset{};
    }

    /** Loads the records: one fresh process per record, in record order
        (`initial`), then all of them pending, stably sorted by arrival time. The
        state is consistent when every burst is positive. */
    method Load(infos: seq<ProcessInfo>) returns (ghost initial: seq<Process>)
      requires QueuesOk()
      requires clock == 0 && pending == [] && finished == [] && dropped == []
      requires q1.items == [] && q2.items == [] && q3.items == []
      modifies this
      ensures InfosOf(initial) == infos
      ensures pending == SortByArrival(initial)
      ensures ByArrival(pending) && multiset(pending) == multiset(initial)
      ensures ByArrival(initial) ==> pending == initial
      ensures clock == 0 && finished == [] && dropped == []
      ensures QueuesOk() && NoDuplicates(Members())
      ensures Members() == multiset(initial) && forall p | p in Members() :: fresh(p)
      ensures Abs() == Engine.Load(InfosOf(pending))
      ensures (forall i :: 0 <= i < |infos| ==> infos[i].burst > 0) ==> Valid()
    {
      var created := Spawn(infos);
      initial := created;
      pending := SortByArrival(created);
      Loaded(created, pending);
      assert Abs() == State(0, Views(pending), [], [], [], [], []);
      assert Members() == multiset(pending);
    }

    /** The loop condition: something is still to arrive or some queue has work. */
    predicate HasPendingWork()
      reads this, q1, q2, q3, pending, q1.items, q2.items, q3.items, finished, dropped
      ensures HasPendingWork() == LoopContinues(Abs())
    {
      pending != [] || q1.HasWork() || q2.HasWork() || q3.HasWork()
    }

    /** Appends `p` to the tail of the queue its id names, either on admission
        or, with `back`, when it is returned after running. */
    method Enqueue(p: Process, back: bool)
      requires QueuesOk() && KnownQueue(p.queue) && Detached(p)
      modifies q1, q2, q3
      ensures QueuesOk()
      ensures p.View() == old(p.View())
      ensures unchanged(this)
      ensures Abs() == Route(old(Abs()), p.View())
      ensures QueueFor(p.queue).items == old(QueueFor(p.queue).items) + [p]
      ensures Members() == old(Members()) + multiset{p}
    {
      ghost var a := Abs();
      var q := QueueFor(p.queue);
      ViewsSnoc(q.items, p);
      if back {
        q.Return(p);
      } else {
        q.Add(p);
      }
      ViewsUnchanged(pending);
      ViewsUnchanged(q1.items);
      ViewsUnchanged(q2.items);
      ViewsUnchanged(q3.items);
      ViewsUnchanged(finished);
      ViewsUnchanged(dropped);
      OneMore(multiset(pending), multiset(old(q1.items)), multiset(old(q2.items)), multiset(old(q3.items)),
              multiset(finished), multiset(dropped), p);
      if p.queue == 1 {
        assert Abs() == a.(q1 := a.q1 + [p.View()]);
      } else if p.queue == 2 {
        assert Abs() == a.(q2 := a.q2 + [p.View()]);
      } else {
        assert Abs() == a.(q3 := a.q3 + [p.View()]);
      }
    }

    /** Takes the first pending process off the pending list. */
    method PopPending() returns (p: Process)
      requires pending != []
      modifies this
      ensures p == old(pending)[0] && pending == old(pending)[1..]
      ensures clock == old(clock) && finished == old(finished) && dropped == old(dropped)
      ensures p.View() == old(Abs()).pending[0]
      ensures Abs() == old(Abs()).(pending := old(Abs()).pending[1..])
      ensures old(Members()) == Members() + multiset{p}
    {
      ghost var a := Abs();
      p := pending[0];
      HeadSplit(pending);
      ViewsTail(pending);
      pending := pending[1..];
      ViewsUnchanged(q1.items);
      ViewsUnchanged(q2.items);
      ViewsUnchanged(q3.items);
      ViewsUnchanged(finished);
      ViewsUnchanged(dropped);
      OneMore(multiset(pending), multiset(q1.items), multiset(q2.items), multiset(q3.items),
              multiset(finished), multiset(dropped), p);
    }

    /** Drops a process whose queue id names no queue: the simulator keeps no
        reference to it, and the model records it in `dropped`. */
    method Drop(p: Process)
      modifies this
      ensures dropped == old(dropped) + [p]
      ensures clock == old(clock) && pending == old(pending) && finished == old(finished)
      ensures p.View() == old(p.View())
      ensures Abs() == old(Abs()).(dropped := old(Abs()).dropped + [p.View()])
      ensures Members() == old(Members()) + multiset{p}
    {
      ViewsSnoc(dropped, p);
      dropped := dropped + [p];
      ViewsUnchanged(pending);
      ViewsUnchanged(q1.items);
      ViewsUnchanged(q2.items);
      ViewsUnchanged(q3.items);
      ViewsUnchanged(finished);
      OneMore(multiset(pending), multiset(q1.items), multiset(q2.items), multiset(q3.items),
              multiset(finished), multiset(old(dropped)), p);
    }

    /** Admits every pending process that has arrived, in order, to the tail of
        the queue its id names; a process whose id names no queue is dropped. */
    method MoveArrivals()
      requires Valid()
      modifies this, q1, q2, q3
      ensures Valid()
      ensures Abs() == Admit(old(Abs()))
      ensures Members() == old(Members())
    {
      while pending != [] && pending[0].arrival <= clock
        invariant QueuesOk()
        invariant Members() == old(Members())
        invariant Admit(Abs()) == Admit(old(Abs()))
        decreases |pending|
      {
        ghost var before := Abs();
        ghost var all := Members();
        var p := PopPending();
        ghost var j := p.View();
        TakenOut(all, Members(), p);
        Outside(p, pending, q1.items, q2.items, q3.items, finished, dropped);
        if KnownQueue(p.queue) {
          Enqueue(p, false);
        } else {
          Drop(p);
        }
        assert p.View() == j;
        AdmitOne(before, Abs());
      }
      AdmitNone(Abs());
      AdmitPreservesInv(old(Abs()));
    }

    /** Takes the head of queue `k` with the slice its policy gives it. */
    method TakeFrom(q: ReadyQueue, ghost k: int) returns (p: Process, slice: int)
      requires QueuesOk() && KnownQueue(k) && q == QueueFor(k) && q.items != []
      modifies q
      ensures QueuesOk()
      ensures p == old(q.items)[0] && q.items == old(q.items)[1..]
      ensures p.View() == Queue(old(Abs()), k)[0]
      ensures slice == NextSlice(PolicyOf(k), p.View().remaining)
      ensures Abs() == WithQueue(old(Abs()), k, Queue(old(Abs()), k)[1..])
      ensures old(Members()) == Members() + multiset{p}
    {
      ghost var a := Abs();
      ViewsTail(q.items);
      HeadSplit(q.items);
      var r;
      r, slice := q.TakeNext(clock);
      p := r;
      ViewsUnchanged(pending);
      ViewsUnchanged(q1.items);
      ViewsUnchanged(q2.items);
      ViewsUnchanged(q3.items);
      ViewsUnchanged(finished);
      ViewsUnchanged(dropped);
      OneMore(multiset(pending), multiset(q1.items), multiset(q2.items), multiset(q3.items),
              multiset(finished), multiset(dropped), p);
      if k == 1 {
        assert Abs() == a.(q1 := a.q1[1..]);
      } else if k == 2 {
        assert Abs() == a.(q2 := a.q2[1..]);
      } else {
        assert Abs() == a.(q3 := a.q3[1..]);
      }
    }

    /** Takes the head of the first non-empty queue in the strict order 1, 2, 3
        together with the slice its queue's policy gives it; with all three
        queues empty, takes nothing. */
    method Pick() returns (p: Process?, slice: int)
      requires Valid()
      modifies q1, q2, q3
      ensures QueuesOk()
      ensures Select(old(Abs())).NoPick? ==> p == null && Abs() == old(Abs()) && Members() == old(Members())
      ensures Select(old(Abs())).Picked? ==>
                && p != null && Detached(p)
                && p == old(QueueFor(FirstBusy(Abs())).items)[0]
                && QueueFor(FirstBusy(old(Abs()))).items == old(QueueFor(FirstBusy(Abs())).items)[1..]
                && p.View() == Select(old(Abs())).job
                && slice == Select(old(Abs())).slice
                && Abs() == Select(old(Abs())).rest
                && old(Members()) == Members() + multiset{p}
    {
      ghost var all := Members();
      if q1.HasWork() {
        p, slice := TakeFrom(q1, 1);
      } else if q2.HasWork() {
        p, slice := TakeFrom(q2, 2);
      } else if q3.HasWork() {
        p, slice := TakeFrom(q3, 3);
      } else {
        p, slice := null, 0;
      }
      if p != null {
        TakenOut(all, Members(), p);
        Outside(p, pending, q1.items, q2.items, q3.items, finished, dropped);
      }
    }

    /** Runs `p` for `slice` units from the current time and advances the clock. */
    method RunFor(p: Process, slice: int)
      requires Detached(p)
      modifies this, p
      ensures clock == old(clock) + slice
      ensures pending == old(pending) && finished == old(finished) && dropped == old(dropped)
      ensures p.View() == Execute(old(p.View()), slice, old(Abs()).clock)
      ensures Abs() == old(Abs()).(clock := old(Abs()).clock + slice)
      ensures Members() == old(Members())
    {
      p.Run(slice, clock);
      clock := clock + slice;
      ViewsUnchanged(pending);
      ViewsUnchanged(q1.items);
      ViewsUnchanged(q2.items);
      ViewsUnchanged(q3.items);
      ViewsUnchanged(finished);
      ViewsUnchanged(dropped);
    }

    /** Records the final metrics of a process that has finished and appends it
        to the finished list. */
    method Retire(p: Process)
      requires Detached(p)
      modifies this, p
      ensures finished == old(finished) + [p]
      ensures clock == old(clock) && pending == old(pending) && dropped == old(dropped)
      ensures Abs() == old(Abs()).(finished := old(Abs()).finished + [Finalize(old(p.View()), old(clock))])
      ensures Members() == old(Members()) + multiset{p}
    {
      p.ComputeFinalMetrics(clock);
      ViewsSnoc(finished, p);
      finished := finished + [p];
      ViewsUnchanged(pending);
      ViewsUnchanged(q1.items);
      ViewsUnchanged(q2.items);
      ViewsUnchanged(q3.items);
      ViewsUnchanged(old(finished));
      ViewsUnchanged(dropped);
      OneMore(multiset(pending), multiset(q1.items), multiset(q2.items), multiset(q3.items),
              multiset(old(finished)), multiset(dropped), p);
    }

    /** Runs `p` for `slice` units and advances the clock; a finished process
        gets its final metrics and joins the finished list, any other goes back
        to the tail of its own queue. */
    method Dispatch(p: Process, slice: int)
      requires QueuesOk() && Detached(p) && KnownQueue(p.queue)
      modifies this, q1, q2, q3, p
      ensures QueuesOk()
      ensures Abs() == Serve(old(Abs()), old(p.View()), slice).state
      ensures Members() == old(Members()) + multiset{p}
    {
      ghost var rest := Abs();
      ghost var j := p.View();
      RunFor(p, slice);
      ghost var ran := p.View();
      ghost var mid := Abs();
      if p.IsFinished() {
        Retire(p);
      } else {
        Enqueue(p, true);
      }
      ServeOutcome(rest, j, slice, mid, ran, Abs());
    }

    /** Nothing could run: the clock jumps to the arrival time of the first
        pending process. */
    method WaitForArrival()
      requires pending != []
      modifies this
      ensures clock == old(pending)[0].arrival
      ensures pending == old(pending) && finished == old(finished) && dropped == old(dropped)
      ensures Abs() == old(Abs()).(clock := old(Abs()).pending[0].info.arrival)
      ensures Members() == old(Members())
    {
      clock := pending[0].arrival;
      ViewsUnchanged(pending);
      ViewsUnchanged(q1.items);
      ViewsUnchanged(q2.items);
      ViewsUnchanged(q3.items);
      ViewsUnchanged(finished);
      ViewsUnchanged(dropped);
    }

    /** One iteration of the dispatch loop; `halt` is the loop's `break`. */
    method StepOnce() returns (halt: bool)
      requires Valid()
      modifies this, q1, q2, q3, Members()
      ensures Valid()
      ensures Abs() == Step(old(Abs())).state
      ensures halt <==> Step(old(Abs())).Stop?
      ensures Members() == old(Members())
    {
      ghost var s := Abs();
      StepPreservesInv(s);
      MoveArrivals();
      ghost var a := Abs();
      if Select(a).Picked? {
        SelectedRunnable(a);
      }
      var p, slice := Pick();
      ghost var u := Abs();
      ghost var ran := p != null && slice > 0;
      if p != null && slice > 0 {
        Dispatch(p, slice);
        halt := false;
      } else if pending != [] {
        WaitForArrival();
        halt := false;
      } else {
        halt := true;
      }
      StepOutcome(s, a, u, Abs(), ran, halt);
    }

    /** Orders the finished list by name. */
    method SortFinished()
      requires Valid()
      modifies this
      ensures Valid()
      ensures finished == SortByName(old(finished))
      ensures ByName(finished)
      ensures clock == old(clock) && pending == old(pending) && dropped == old(dropped)
      ensures old(Abs()) == Abs().(finished := Views(old(finished)))
      ensures Members() == old(Members())
    {
      ghost var s := Abs();
      finished := SortByName(finished);
      SortByNameSorted(old(finished));
      PermutedRetired(old(finished), finished, clock);
      ViewsUnchanged(pending);
      ViewsUnchanged(q1.items);
      ViewsUnchanged(q2.items);
      ViewsUnchanged(q3.items);
      ViewsUnchanged(old(finished));
      ViewsUnchanged(finished);
      ViewsUnchanged(dropped);
      InvFinished(s, Views(finished));
      assert Abs() == s.(finished := Views(finished));
    }

    /** Runs the dispatch loop until nothing is pending or ready, then orders
        the finished list by name. `completed` is the finished list in
        completion order, before that sort. */
    method Simulate() returns (ghost completed: seq<Process>)
      requires Valid()
      modifies this, q1, q2, q3, Members()
      ensures Valid()
      ensures Members() == old(Members())
      ensures Abs().(finished := Views(completed)) == Run(old(Abs()))
      ensures finished == SortByName(completed)
      ensures ByName(finished)
    {
      ghost var s0 := Abs();
      while HasPendingWork()
        invariant Valid()
        invariant Members() == old(Members())
        invariant Run(Abs()) == Run(s0)
        decreases Work(Abs()), |Abs().pending|, Gap(Abs())
      {
        ghost var s := Abs();
        RunUnfold(s);
        RunStep(s);
        var halt := StepOnce();
        if halt {
          RunUnfold(Abs());
          break;
        }
      }
      RunUnfold(Abs());
      completed := finished;
      SortFinished();
    }
  }

  /** The example input mlq001 run through the simulator object: the loaded
      order is kept, and the simulation ends at time 48. */
  method RunSample() returns (finalClock: int)
    ensures finalClock == 48
  {
    var sim := new Scheduler();
    ghost var initial := sim.Load(Sample());
    SampleInOrder(initial);
    SampleWork();
    ghost var completed := sim.Simulate();
    SampleRun();
    finalClock := sim.clock;
  }

  /** The records of the example input arrive together, so loading keeps their order. */
  lemma SampleInOrder(ps: seq<Process>)
    requires InfosOf(ps) == Sample()
    ensures ByArrival(ps)
  {
    assert forall i :: 0 <= i < |ps| ==> ps[i].arrival == Sample()[i].arrival == 0;
  }
}
