/** The order in which finished processes are reported: by name, comparing
    names character by character on their code points, a proper prefix first
    (the order of Python's `str` comparison). */
module Ordering {
  import opened Processes

  /** `a` comes no later than `b` in the order of names. */
  predicate NameLe(a: string, b: string)
    decreases |a|
  {
    a == [] || (b != [] && (a[0] < b[0] || (a[0] == b[0] && NameLe(a[1..], b[1..]))))
  }

  /** Any two names are comparable. */
  lemma {:induction false} NameLeTotal(a: string, b: string)
    ensures NameLe(a, b) || NameLe(b, a)
    decreases |a|
  {
    if a != [] && b != [] && a[0] == b[0] {
      NameLeTotal(a[1..], b[1..]);
    }
  }

  /** The order is antisymmetric: names that come no later than each other are equal. */
  lemma {:induction false} NameLeAntisymmetric(a: string, b: string)
    requires NameLe(a, b) && NameLe(b, a)
    ensures a == b
    decreases |a|
  {
    if a != [] {
      NameLeAntisymmetric(a[1..], b[1..]);
      assert a == [a[0]] + a[1..] && b == [b[0]] + b[1..];
    }
  }

  lemma {:induction false} NameLeTransitive(a: string, b: string, c: string)
    requires NameLe(a, b) && NameLe(b, c)
    ensures NameLe(a, c)
    decreases |a|
  {
    if a != [] && a[0] == b[0] && b[0] == c[0] {
      NameLeTransitive(a[1..], b[1..], c[1..]);
    }
  }

  /** Processes listed in the order of their names. */
  predicate ByName(ps: seq<Process>)
  {
    forall i :: 0 < i < |ps| ==> NameLe(ps[i - 1].name, ps[i].name)
  }

  /** Inserts `p` before the first process whose name does not come before its own. */
  function Insert(p: Process, ps: seq<Process>): (r: seq<Process>)
    ensures multiset(r) == multiset(ps) + multiset{p}
    ensures |r| == |ps| + 1
    ensures r[0] == p || (ps != [] && r[0] == ps[0])
  {
    if ps == [] then [p]
    else if NameLe(p.name, ps[0].name) then [p] + ps
    else
      assert ps == [ps[0]] + ps[1..];
      [ps[0]] + Insert(p, ps[1..])
  }

  /** The list sorted by name; processes with equal names keep their order. */
  function SortByName(ps: seq<Process>): (r: seq<Process>)
    ensures multiset(r) == multiset(ps)
    ensures |r| == |ps|
  {
    if ps == [] then []
    else
      assert ps == [ps[0]] + ps[1..];
      Insert(ps[0], SortByName(ps[1..]))
  }

  lemma {:induction false} InsertByName(p: Process, ps: seq<Process>)
    requires ByName(ps)
    ensures ByName(Insert(p, ps))
    decreases |ps|
  {
    if ps != [] && !NameLe(p.name, ps[0].name) {
      NameLeTotal(p.name, ps[0].name);
      InsertByName(p, ps[1..]);
      var r := Insert(p, ps[1..]);
      assert Insert(p, ps) == [ps[0]] + r;
      if |ps| > 1 {
        assert NameLe(ps[0].name, ps[1].name);
      }
    }
  }

  /** The report order is sorted by name and is a permutation of the completion order. */
  lemma {:induction false} SortByNameSorted(ps: seq<Process>)
    ensures ByName(SortByName(ps))
    ensures multiset(SortByName(ps)) == multiset(ps)
    decreases |ps|
  {
    if ps != [] {
      SortByNameSorted(ps[1..]);
      InsertByName(ps[0], SortByName(ps[1..]));
    }
  }

  /** Processes listed in the order of their arrival times. */
  predicate ByArrival(ps: seq<Process>)
  {
    forall i, k :: 0 <= i < k < |ps| ==> ps[i].arrival <= ps[k].arrival
  }

  /** Inserts `p` before the first process that arrives no earlier than it. */
  function InsertByArrival(p: Process, ps: seq<Process>): (r: seq<Process>)
    ensures multiset(r) == multiset(ps) + multiset{p}
    ensures |r| == |ps| + 1
  {
    if ps == [] then [p]
    else if p.arrival <= ps[0].arrival then [p] + ps
    else
      assert ps == [ps[0]] + ps[1..];
      [ps[0]] + InsertByArrival(p, ps[1..])
  }

  /** The list sorted by arrival time, built by inserting from the back. */
  function SortByArrival(ps: seq<Process>): (r: seq<Process>)
    ensures multiset(r) == multiset(ps)
    ensures |r| == |ps|
  {
    if ps == [] then []
    else
      assert ps == [ps[0]] + ps[1..];
      InsertByArrival(ps[0], SortByArrival(ps[1..]))
  }

  lemma {:induction false} InsertKeepsArrivalOrder(p: Process, ps: seq<Process>)
    requires ByArrival(ps)
    ensures ByArrival(InsertByArrival(p, ps))
    decreases |ps|
  {
    if ps != [] && ps[0].arrival < p.arrival {
      InsertKeepsArrivalOrder(p, ps[1..]);
      var r := InsertByArrival(p, ps[1..]);
      forall k | 0 <= k < |r|
        ensures ps[0].arrival <= r[k].arrival
      {
        assert r[k] in multiset(r);
        if r[k] != p {
          assert r[k] in multiset(ps[1..]);
          var m :| 0 <= m < |ps[1..]| && ps[1..][m] == r[k];
          assert ps[m + 1] == r[k];
        }
      }
      assert InsertByArrival(p, ps) == [ps[0]] + r;
    }
  }

  /** The pending order is sorted by arrival time and is a permutation of the
      loaded order. */
  lemma {:induction false} SortByArrivalSorted(ps: seq<Process>)
    ensures ByArrival(SortByArrival(ps))
    ensures multiset(SortByArrival(ps)) == multiset(ps)
    decreases |ps|
  {
    if ps != [] {
      SortByArrivalSorted(ps[1..]);
      InsertKeepsArrivalOrder(ps[0], SortByArrival(ps[1..]));
    }
  }

  /** The sort is stable: a list already in arrival order, ties included, comes
      out unchanged. */
  lemma {:induction false} SortByArrivalKeepsOrder(ps: seq<Process>)
    requires ByArrival(ps)
    ensures SortByArrival(ps) == ps
    decreases |ps|
  {
    if ps != [] {
      SortByArrivalKeepsOrder(ps[1..]);
      assert ps == [ps[0]] + ps[1..];
    }
  }
}
