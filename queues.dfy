/** Ready queues of the simulator and the policies that decide how long the head
    process runs. Round-Robin with a quantum hands out at most one quantum at a
    time; First-Come-First-Served runs the head process to completion. */
module Queues {
  import opened Processes

  /** The three queue classes differ only in this: RR(3), RR(5) and FCFS. */
  datatype Policy = RR(quantum: nat) | FCFS

  /** The slice a queue hands its head process that has `remaining` units left:
      Round-Robin gives the smaller of the quantum and the remaining time, FCFS
      all of the remaining time. */
  function NextSlice(policy: Policy, remaining: int): (s: int)
    ensures policy.FCFS? ==> s == remaining
    ensures policy.RR? ==> s <= policy.quantum && s <= remaining
    ensures policy.RR? ==> s == policy.quantum || s == remaining
  {
    match policy
    case RR(q) => if q <= remaining then q else remaining
    case FCFS => remaining
  }

  function Sum(s: seq<int>): int
  {
    if s == [] then 0 else s[0] + Sum(s[1..])
  }

  /** The successive slices a process with `r` units left receives from a queue
      with this policy, when it is dispatched from it until it finishes. */
  function Slices(policy: Policy, r: int): seq<int>
    requires policy.RR? ==> policy.quantum > 0
    decreases if r > 0 then r else 0
  {
    if r <= 0 then [] else [NextSlice(policy, r)] + Slices(policy, r - NextSlice(policy, r))
  }

  /** The slices add up to exactly the time the process needed, each is positive,
      a Round-Robin slice never exceeds the quantum and every one but the last is
      a whole quantum, and FCFS hands out a single slice. */
  lemma {:induction false} SlicesSpec(policy: Policy, r: int)
    requires policy.RR? ==> policy.quantum > 0
    requires r >= 0
    ensures Sum(Slices(policy, r)) == r
    ensures forall i :: 0 <= i < |Slices(policy, r)| ==> Slices(policy, r)[i] > 0
    ensures policy.RR? ==>
              forall i :: 0 <= i < |Slices(policy, r)| ==> Slices(policy, r)[i] <= policy.quantum
    ensures policy.RR? ==>
              forall i :: 0 <= i < |Slices(policy, r)| - 1 ==> Slices(policy, r)[i] == policy.quantum
    ensures policy.FCFS? && r > 0 ==> Slices(policy, r) == [r]
    decreases r
  {
    if r > 0 {
      var s := NextSlice(policy, r);
      var rest := Slices(policy, r - s);
      SlicesSpec(policy, r - s);
      assert Slices(policy, r) == [s] + rest;
      assert Sum([s] + rest) == s + Sum(rest) by {
        assert ([s] + rest)[1..] == rest;
      }
      if policy.RR? && r - s > 0 {
        assert s == policy.quantum;
      }
      if policy.FCFS? {
        assert rest == [];
      }
    }
  }

  /** A ready queue: a FIFO of process references under one policy. */
  class ReadyQueue {
    const policy: Policy
    var items: seq<Process>

    constructor (policy: Policy)
      ensures this.policy == policy && items == []
    {
      this.policy := policy;
      items := [];
    }

    /** Admits a newly arrived process at the tail. */
    method Add(p: Process)
      modifies this
      ensures items == old(items) + [p]
    {
      items := items + [p];
    }

    /** The queue holds some process. */
    predicate HasWork()
      reads this
      ensures HasWork() <==> items != []
    {
      |items| > 0
    }

    /** Puts a process that has not finished back at the tail. */
    method Return(p: Process)
      modifies this
      ensures items == old(items) + [p]
    {
      items := items + [p];
    }

    /** Removes the head process and says how long it is to run; on an empty
        queue returns no process and a zero slice and changes nothing. The clock
        is part of the interface and unused by these policies. */
    method TakeNext(clock: int) returns (p: Process?, slice: int)
      modifies this
      ensures old(items) == [] ==> p == null && slice == 0 && items == old(items)
      ensures old(items) != [] ==>
                p == old(items)[0] && items == old(items)[1..] && slice == NextSlice(policy, p.remaining)
    {
      if !HasWork() {
        return null, 0;
      }
      p := items[0];
      items := items[1..];
      slice := NextSlice(policy, p.remaining);
    }
  }
}
