/**
 * The pending jobs of a thread pool.  The specification is one sequence of jobs
 * in the order in which they were scheduled; the program keeps a map from
 * priority to FIFO and pops from the first FIFO that is not empty.
 */
module JobQueue {
  import opened Wrappers

  /** `ticket` is the position of the job among all jobs ever scheduled. */
  datatype Job = Job(ticket: nat, prio: int, queue: nat)

  /** Index of the job to run next: smallest priority number, oldest among equals. */
  function BestIndex(q: seq<Job>): (i: nat)
    requires q != []
    ensures i < |q|
    ensures forall k :: 0 <= k < |q| ==> q[i].prio <= q[k].prio
    ensures forall k :: 0 <= k < i ==> q[i].prio < q[k].prio
  {
    if |q| == 1 then 0 else
      var r := 1 + BestIndex(q[1..]);
      if q[0].prio <= q[r].prio then 0 else r
  }

  function Without(q: seq<Job>, i: nat): seq<Job>
    requires i < |q|
  {
    q[..i] + q[i + 1..]
  }

  /** The jobs of one priority, in schedule order. */
  function WithPrio(q: seq<Job>, p: int): seq<Job> {
    if q == [] then [] else
      var last := q[|q| - 1];
      WithPrio(q[..|q| - 1], p) + (if last.prio == p then [last] else [])
  }

  lemma WithPrioAppend(q: seq<Job>, j: Job, p: int)
    ensures WithPrio(q + [j], p) == WithPrio(q, p) + (if j.prio == p then [j] else [])
  {
    assert (q + [j])[..|q|] == q;
  }

  lemma {:induction false} WithPrioEmpty(q: seq<Job>, p: int)
    ensures WithPrio(q, p) == [] <==> forall k :: 0 <= k < |q| ==> q[k].prio != p
  {
    if q != [] { WithPrioEmpty(q[..|q| - 1], p); }
  }

  /** Removing the first job of a priority removes the head of that FIFO and nothing else. */
  lemma {:induction false} WithPrioWithout(q: seq<Job>, i: nat, p: int)
    requires i < |q|
    requires forall k :: 0 <= k < i ==> q[k].prio != q[i].prio
    ensures p != q[i].prio ==> WithPrio(Without(q, i), p) == WithPrio(q, p)
    ensures p == q[i].prio ==> WithPrio(q, p) == [q[i]] + WithPrio(Without(q, i), p)
  {
    var n := |q| - 1;
    if i == n {
      assert Without(q, i) == q[..n];
      WithPrioEmpty(q[..n], q[i].prio);
    } else {
      assert Without(q, i)[..n - 1] == Without(q[..n], i);
      WithPrioWithout(q[..n], i, p);
    }
  }

  lemma WithoutConserves(q: seq<Job>, i: nat)
    requires i < |q|
    ensures multiset(q) == multiset(Without(q, i)) + multiset{q[i]}
  {
    assert q == q[..i] + [q[i]] + q[i + 1..];
  }

  /** A priority that comes first among those present; stands for `begin()` of the ordered map. */
  ghost predicate IsFirstKey(m: map<int, seq<Job>>, p: int) {
    p in m && forall k :: k in m ==> p <= k
  }

  lemma StrictSubsetSmaller(a: set<int>, b: set<int>)
    requires a < b
    ensures |a| < |b|
  {
    assert b == a + (b - a);
    assert b - a != {};
  }

  method AnyOf<A>(s: set<A>) returns (a: A)
    requires s != {}
    ensures a in s
  {
    a :| a in s;
  }

  method FirstKey(m: map<int, seq<Job>>) returns (p: int)
    requires |m.Keys| > 0
    ensures IsFirstKey(m, p)
  {
    var keys := m.Keys;
    p := AnyOf(keys);
    keys := keys - {p};
    while keys != {}
      invariant keys <= m.Keys && p in m
      invariant forall k :: k in m && k !in keys ==> p <= k
      decreases |keys|
    {
      var k := AnyOf(keys);
      keys := keys - {k};
      if k < p { p := k; }
    }
  }

  /** The map from priority to FIFO holds exactly the queued jobs. */
  ghost predicate Represents(m: map<int, seq<Job>>, q: seq<Job>) {
    forall p :: WithPrio(q, p) == if p in m then m[p] else []
  }

  /** The front of the first FIFO, when not empty, is the best job of the whole queue. */
  lemma FrontIsBest(m: map<int, seq<Job>>, q: seq<Job>, first: int)
    requires Represents(m, q) && IsFirstKey(m, first) && m[first] != []
    ensures q != [] && m[first][0] == q[BestIndex(q)] && first == q[BestIndex(q)].prio
  {
    assert WithPrio(q, first) != [];
    var i := BestIndex(q);
    WithPrioEmpty(q, first);
    WithPrioEmpty(q, q[i].prio);
    assert q[i].prio in m;
    WithPrioWithout(q, i, first);
  }

  lemma FrontRemoved(m: map<int, seq<Job>>, q: seq<Job>, first: int)
    requires Represents(m, q) && IsFirstKey(m, first) && m[first] != []
    ensures q != [] && Represents(m[first := m[first][1..]], Without(q, BestIndex(q)))
  {
    FrontIsBest(m, q, first);
    var i := BestIndex(q);
    forall p ensures WithPrio(Without(q, i), p) == if p == first then m[first][1..] else WithPrio(q, p) {
      WithPrioWithout(q, i, p);
    }
  }

  lemma NothingQueued(m: map<int, seq<Job>>, q: seq<Job>)
    requires Represents(m, q) && |m.Keys| == 0
    ensures q == []
  {
    if q != [] { WithPrioEmpty(q, q[0].prio); }
  }

  /** `PrivateData::jobs`: a map from priority to FIFO. */
  class JobMap {
    var jobs: map<int, seq<Job>>
    ghost var queued: seq<Job>

    ghost predicate Valid()
      reads this
    {
      Represents(jobs, queued)
    }

    constructor ()
      ensures Valid() && queued == []
    {
      jobs := map[];
      queued := [];
    }

    /** `jobs[priority].emplace(fn, queue)` */
    method Push(j: Job)
      requires Valid()
      modifies this
      ensures Valid() && queued == old(queued) + [j]
    {
      var fifo := if j.prio in jobs then jobs[j.prio] else [];
      jobs := jobs[j.prio := fifo + [j]];
      forall p ensures WithPrio(queued + [j], p) == WithPrio(queued, p) + (if j.prio == p then [j] else []) {
        WithPrioAppend(queued, j, p);
      }
      queued := queued + [j];
    }

    /**
     * The locked section of `do_one`: erase leading empty FIFOs, then take the
     * front of the first one.  `None` is the "JobQueue empty" defect.
     */
    method Pop() returns (r: Option<Job>)
      requires Valid()
      modifies this
      ensures Valid()
      ensures r.None? <==> old(queued) == []
      ensures r.None? ==> queued == old(queued)
      ensures r.Some? ==> r.value == old(queued)[BestIndex(old(queued))]
                          && queued == Without(old(queued), BestIndex(old(queued)))
    {
      var empty, first := SkipEmpty();
      if empty {
        NothingQueued(jobs, queued);
        return None;
      }
      FrontIsBest(jobs, queued, first);
      FrontRemoved(jobs, queued, first);
      r := Some(jobs[first][0]);
      jobs := jobs[first := jobs[first][1..]];
      queued := Without(queued, BestIndex(queued));
    }

    /** Erases leading empty FIFOs. */
    method SkipEmpty() returns (empty: bool, first: int)
      requires Valid()
      modifies this`jobs
      ensures Valid()
      ensures empty <==> |jobs.Keys| == 0
      ensures !empty ==> IsFirstKey(jobs, first) && jobs[first] != []
    {
      empty, first := |jobs.Keys| == 0, 0;
      if !empty { first := FirstKey(jobs); }
      while !empty && jobs[first] == []
        invariant Valid()
        invariant empty <==> |jobs.Keys| == 0
        invariant !empty ==> IsFirstKey(jobs, first)
        decreases |jobs.Keys|
      {
        ghost var before := jobs.Keys;
        jobs := jobs - {first};
        StrictSubsetSmaller(jobs.Keys, before);
        empty := |jobs.Keys| == 0;
        if !empty { first := FirstKey(jobs); }
      }
    }
  }
}
