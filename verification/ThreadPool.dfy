/**
 * The thread pool and its job queues as one transition system.  Every step is
 * one critical section of the program, so a worker claims a job (decrements
 * `jobcount`) in one step, pops it in a later one, and takes its queue lock in
 * a third; any number of workers interleave.
 */
module ThreadPool {
  import opened Counting
  import opened JobQueue
  import opened Wrappers

  // ------------------------------------------------------------------
  // The fields of ThreadPool::PrivateData and its critical sections

  datatype Pool = Pool(alive: bool, completeAll: bool, jobcount: nat, queued: seq<Job>)

  datatype Verdict = Claim | Wait | Leave

  function Scheduled(p: Pool, j: Job): Pool {
    p.(queued := p.queued + [j], jobcount := p.jobcount + 1)
  }

  /** What a worker decides while it holds the lock in `work`. */
  function Decide(p: Pool): Verdict {
    if (p.alive || p.completeAll) && p.jobcount > 0 then Claim
    else if p.alive then Wait
    else Leave
  }

  function AfterDecide(p: Pool): Pool {
    if Decide(p).Claim? then p.(jobcount := p.jobcount - 1) else p
  }

  function AfterPop(p: Pool): Pool {
    if p.queued == [] then p else p.(queued := Without(p.queued, BestIndex(p.queued)))
  }

  class PrivateData {
    var jobcount: nat
    var alive: bool
    const completeAllJobsBeforeDestruction: bool
    const jobs: JobMap

    ghost predicate Valid()
      reads this, jobs
    {
      jobs.Valid()
    }

    ghost function State(): Pool
      reads this, jobs
    {
      Pool(alive, completeAllJobsBeforeDestruction, jobcount, jobs.queued)
    }

    constructor (completeAll: bool)
      ensures Valid() && fresh(jobs) && State() == Pool(true, completeAll, 0, [])
    {
      jobcount, alive := 0, true;
      completeAllJobsBeforeDestruction := completeAll;
      jobs := new JobMap();
    }

    method Schedule(j: Job)
      requires Valid()
      modifies this, jobs
      ensures Valid() && State() == Scheduled(old(State()), j)
    {
      jobs.Push(j);
      jobcount := jobcount + 1;
    }

    /** One locked section of `work`; the second loop is the one entered once `alive` is false. */
    method WorkSection() returns (v: Verdict)
      requires Valid()
      modifies this`jobcount
      ensures Valid() && v == Decide(old(State())) && State() == AfterDecide(old(State()))
    {
      if alive {
        if jobcount > 0 {
          jobcount := jobcount - 1;
          return Claim;
        }
        return Wait;
      }
      var busy := completeAllJobsBeforeDestruction;
      if busy {
        if jobcount > 0 {
          jobcount := jobcount - 1;
          return Claim;
        }
        busy := false;
      }
      return Leave;
    }

    /** The locked section of `do_one`. */
    method PopSection() returns (r: Option<Job>)
      requires Valid()
      modifies jobs
      ensures Valid() && State() == AfterPop(old(State()))
      ensures r == if old(State()).queued == [] then None
                   else Some(old(State()).queued[BestIndex(old(State()).queued)])
    {
      r := jobs.Pop();
    }

    method Destroy()
      requires Valid()
      modifies this`alive
      ensures Valid() && State() == old(State()).(alive := false)
    {
      alive := false;
    }
  }

  // ------------------------------------------------------------------
  // The fields of QueueImpl; `deleter` is the thread inside `deletingQueue`

  datatype Deleter = NotDeleting | Blocking | Woken | Returned

  datatype Queue = Queue(count: nat, isDeleted: bool, deleter: Deleter)

  const MAX_UNSIGNED: nat := 0xFFFF_FFFF

  /** `count--` on an unsigned int. */
  function Decremented(count: nat): nat {
    if count == 0 then MAX_UNSIGNED else count - 1
  }

  function Started(q: Queue): Queue { q.(count := q.count + 1) }

  function Finished(q: Queue): Queue {
    Queue(Decremented(q.count), q.isDeleted, if q.deleter.Blocking? then Woken else q.deleter)
  }

  /** A section of `deletingQueue` that ends by returning or by waiting on the condition. */
  function DeletionChecked(q: Queue): Queue {
    Queue(q.count, true, if q.count == 0 then Returned else Blocking)
  }

  class QueueImpl {
    var count: nat
    var isDeleted: bool
    ghost var deleter: Deleter

    ghost function State(): Queue
      reads this
    {
      Queue(count, isDeleted, deleter)
    }

    constructor ()
      ensures State() == Queue(0, false, NotDeleting)
    {
      count, isDeleted, deleter := 0, false, NotDeleting;
    }

    method JobStarted() returns (queueExists: bool)
      modifies this
      ensures State() == Started(old(State())) && queueExists == !old(isDeleted)
    {
      count := count + 1;
      queueExists := !isDeleted;
    }

    method JobFinished()
      modifies this
      ensures State() == Finished(old(State()))
    {
      count := if count == 0 then MAX_UNSIGNED else count - 1;
      if deleter.Blocking? { deleter := Woken; }
    }

    /** `deletingQueue` from its start, or from a wake-up, to its return or its next wait. */
    method DeletingQueueSection() returns (done: bool)
      requires deleter.NotDeleting? || (deleter.Woken? && isDeleted)
      modifies this
      ensures State() == DeletionChecked(old(State())) && done == (old(count) == 0)
    {
      isDeleted := true;
      done := count == 0;
      deleter := if done then Returned else Blocking;
    }
  }

  // ------------------------------------------------------------------
  // The whole system

  datatype Worker =
    | AtLoop               // runnable, about to take the pool lock in `work`
    | Blocked              // inside cond.wait
    | Claimed              // decremented jobcount, has not popped yet
    | Popped(job: Job)     // left the locked section of do_one with a job
    | Running(job: Job)    // holds a valid QueueLock, executes job.fn
    | Discarding(job: Job) // holds an invalid QueueLock
    | Left                 // returned from `work`

  /** `all`, `popped`, `ran`, `discarded`, `late` record history and are never read by the program. */
  datatype State = State(
    pool: Pool,
    workers: seq<Worker>,
    queues: seq<Queue>,
    all: seq<Job>,
    popped: seq<Job>,
    ran: multiset<Job>,
    discarded: multiset<Job>,
    late: bool,
    defect: bool)

  datatype Step =
    | CreateQueue
    | AddWorker
    | Schedule(prio: int, queue: nat, woken: Option<nat>)
    | Section(w: nat)
    | Spurious(w: nat)
    | PopJob(w: nat)
    | StartJob(w: nat)
    | FinishJob(w: nat)
    | Destroy
    | DeleteQueue(q: nat)
    | RecheckQueue(q: nat)
    | SpuriousQueue(q: nat)

  predicate IsAtLoop(w: Worker) { w.AtLoop? }
  predicate IsBlocked(w: Worker) { w.Blocked? }
  predicate IsClaimed(w: Worker) { w.Claimed? }
  predicate IsLeft(w: Worker) { w.Left? }
  function HoldsLock(q: nat): Worker -> bool {
    (w: Worker) => (w.Running? || w.Discarding?) && w.job.queue == q
  }
  function InHand(w: Worker): multiset<Job> {
    if w.Popped? || w.Running? || w.Discarding? then multiset{w.job} else multiset{}
  }

  predicate Enabled(s: State, e: Step) {
    match e
    case CreateQueue => true
    case AddWorker => s.pool.alive
    case Schedule(prio, q, woken) =>
      q < |s.queues| &&
      (match woken
       case None => forall w :: 0 <= w < |s.workers| ==> !s.workers[w].Blocked?
       case Some(w) => w < |s.workers| && s.workers[w].Blocked?)
    case Section(w) => w < |s.workers| && s.workers[w].AtLoop?
    case Spurious(w) => w < |s.workers| && s.workers[w].Blocked?
    case PopJob(w) => w < |s.workers| && s.workers[w].Claimed?
    case StartJob(w) => w < |s.workers| && s.workers[w].Popped? && s.workers[w].job.queue < |s.queues|
    case FinishJob(w) =>
      w < |s.workers| && (s.workers[w].Running? || s.workers[w].Discarding?) && s.workers[w].job.queue < |s.queues|
    case Destroy => s.pool.alive
    case DeleteQueue(q) => q < |s.queues| && s.queues[q].deleter.NotDeleting?
    case RecheckQueue(q) => q < |s.queues| && s.queues[q].deleter.Woken?
    case SpuriousQueue(q) => q < |s.queues| && s.queues[q].deleter.Blocking?
  }

  /** `notify_all` */
  function Unblock(ws: seq<Worker>): seq<Worker> {
    seq(|ws|, i requires 0 <= i < |ws| => if ws[i].Blocked? then AtLoop else ws[i])
  }

  function Apply(s: State, e: Step): State
    requires Enabled(s, e)
  {
    match e
    case CreateQueue => s.(queues := s.queues + [Queue(0, false, NotDeleting)])
    case AddWorker => s.(workers := s.workers + [AtLoop])
    case Schedule(prio, q, woken) =>
      var j := Job(|s.all|, prio, q);
      s.(pool := Scheduled(s.pool, j), all := s.all + [j], late := s.late || !s.pool.alive,
         workers := if woken.Some? then s.workers[woken.value := AtLoop] else s.workers)
    case Section(w) =>
      var next := match Decide(s.pool) case Claim => Claimed case Wait => Blocked case Leave => Left;
      s.(pool := AfterDecide(s.pool), workers := s.workers[w := next])
    case Spurious(w) => s.(workers := s.workers[w := AtLoop])
    case PopJob(w) =>
      if s.pool.queued == [] then s.(defect := true, workers := s.workers[w := Left])
      else
        var j := s.pool.queued[BestIndex(s.pool.queued)];
        s.(pool := AfterPop(s.pool), popped := s.popped + [j], workers := s.workers[w := Popped(j)])
    case StartJob(w) =>
      var j := s.workers[w].job;
      s.(queues := s.queues[j.queue := Started(s.queues[j.queue])],
         workers := s.workers[w := if s.queues[j.queue].isDeleted then Discarding(j) else Running(j)])
    case FinishJob(w) =>
      var j := s.workers[w].job;
      s.(queues := s.queues[j.queue := Finished(s.queues[j.queue])],
         workers := s.workers[w := AtLoop],
         ran := if s.workers[w].Running? then s.ran + multiset{j} else s.ran,
         discarded := if s.workers[w].Discarding? then s.discarded + multiset{j} else s.discarded)
    case Destroy => s.(pool := s.pool.(alive := false), workers := Unblock(s.workers))
    case DeleteQueue(q) => s.(queues := s.queues[q := DeletionChecked(s.queues[q])])
    case RecheckQueue(q) => s.(queues := s.queues[q := DeletionChecked(s.queues[q])])
    case SpuriousQueue(q) => s.(queues := s.queues[q := s.queues[q].(deleter := Woken)])
  }

  ghost predicate Init(s: State) {
    s.pool.alive && s.pool.jobcount == 0 && s.pool.queued == []
    && (forall w :: 0 <= w < |s.workers| ==> s.workers[w].AtLoop?)
    && s.queues == [] && s.all == [] && s.popped == []
    && s.ran == multiset{} && s.discarded == multiset{} && !s.late && !s.defect
  }

  ghost predicate Next(s: State, t: State) {
    exists e :: Enabled(s, e) && t == Apply(s, e)
  }

  ghost predicate StepAt(r: seq<State>, i: nat)
    requires 0 < i < |r|
  {
    Next(r[i - 1], r[i])
  }

  ghost predicate IsRun(r: seq<State>) {
    |r| > 0 && Init(r[0]) && forall i {:trigger StepAt(r, i)} :: 0 < i < |r| ==> StepAt(r, i)
  }

  /** The step a run takes to its `i`-th state. */
  lemma StepOf(r: seq<State>, i: nat) returns (e: Step)
    requires IsRun(r) && 0 < i < |r|
    ensures Enabled(r[i - 1], e) && r[i] == Apply(r[i - 1], e)
  {
    assert StepAt(r, i);
    e :| Enabled(r[i - 1], e) && r[i] == Apply(r[i - 1], e);
  }

  // ------------------------------------------------------------------
  // Invariants

  /** `jobcount` is behind the real number of queued jobs by exactly the claims not yet popped. */
  ghost predicate Conserved(s: State) {
    && |s.pool.queued| == s.pool.jobcount + Count(IsClaimed, s.workers)
    && !s.defect
  }

  /** A job's ticket is its position among all jobs ever scheduled. */
  ghost predicate Ticketed(all: seq<Job>) {
    forall t :: 0 <= t < |all| ==> all[t].ticket == t
  }

  /** Every job ever scheduled is in exactly one place. */
  ghost predicate Accounted(s: State) {
    && Ticketed(s.all)
    && multiset(s.all) == multiset(s.pool.queued) + multiset(s.popped)
    && multiset(s.popped) == Gather(InHand, s.workers) + s.ran + s.discarded
  }

  ghost predicate InTicketOrder(js: seq<Job>) {
    forall a, b :: 0 <= a < b < |js| ==> js[a].ticket < js[b].ticket
  }

  /** Within one priority, jobs are popped in the order in which they were scheduled. */
  ghost predicate Fifo(s: State) {
    && InTicketOrder(s.pool.queued)
    && (forall j :: j in s.pool.queued ==> j.ticket < |s.all|)
    && PoppedFifo(s.popped, s.pool.queued)
  }

  ghost predicate PoppedFifo(popped: seq<Job>, queued: seq<Job>) {
    && (forall a, b :: 0 <= a < b < |popped| && popped[a].prio == popped[b].prio
          ==> popped[a].ticket < popped[b].ticket)
    && (forall a, j :: 0 <= a < |popped| && j in queued && j.prio == popped[a].prio
          ==> popped[a].ticket < j.ticket)
  }

  /** No worker sleeps unless every unclaimed job has an awake worker on its way to the lock. */
  ghost predicate WorkConserving(s: State) {
    && (s.pool.alive && Count(IsBlocked, s.workers) > 0 ==> Count(IsAtLoop, s.workers) >= s.pool.jobcount)
    && (!s.pool.alive ==> Count(IsBlocked, s.workers) == 0)
  }

  ghost predicate Drained(s: State) {
    && (s.pool.alive ==> Count(IsLeft, s.workers) == 0)
    && (s.pool.completeAll && !s.late && Count(IsLeft, s.workers) > 0 ==> s.pool.jobcount == 0)
  }

  ghost predicate NoneRunning(ws: seq<Worker>, q: nat) {
    forall w :: 0 <= w < |ws| && ws[w].Running? ==> ws[w].job.queue != q
  }

  /** `count` is the number of QueueLock holders; a blocked deletion still has a holder to wake it. */
  ghost predicate QueueOk(queue: Queue, q: nat, ws: seq<Worker>) {
    && queue.count == Count(HoldsLock(q), ws)
    && (queue.isDeleted <==> !queue.deleter.NotDeleting?)
    && (queue.deleter.Blocking? ==> queue.count > 0)
    && (queue.deleter.Returned? ==> NoneRunning(ws, q))
  }

  predicate HasJob(w: Worker) { w.Popped? || w.Running? || w.Discarding? }

  ghost predicate JobsKnown(s: State) {
    && (forall w :: 0 <= w < |s.workers| && HasJob(s.workers[w]) ==> s.workers[w].job.queue < |s.queues|)
    && (forall j :: j in s.pool.queued ==> j.queue < |s.queues|)
  }

  ghost predicate QueuesOk(s: State) {
    && (forall q :: 0 <= q < |s.queues| ==> QueueOk(s.queues[q], q, s.workers))
    && JobsKnown(s)
  }

  /** Only jobs of deleted queues are dropped. */
  ghost predicate DiscardsJustified(s: State) {
    && (forall w :: 0 <= w < |s.workers| && s.workers[w].Discarding? ==> QueueGone(s, s.workers[w].job.queue))
    && (forall j :: j in s.discarded ==> QueueGone(s, j.queue))
  }

  ghost predicate QueueGone(s: State, q: nat) {
    q < |s.queues| && s.queues[q].isDeleted
  }

  ghost predicate Inv(s: State) {
    DiscardsJustified(s) && Conserved(s) && Accounted(s) && Fifo(s) && WorkConserving(s) && Drained(s) && QueuesOk(s)
  }

  lemma CountsAreZero(s: State)
    ensures Count(IsBlocked, s.workers) == 0 <==> forall w :: 0 <= w < |s.workers| ==> !s.workers[w].Blocked?
    ensures Count(IsLeft, s.workers) == 0 <==> forall w :: 0 <= w < |s.workers| ==> !s.workers[w].Left?
    ensures Count(IsClaimed, s.workers) == 0 <==> forall w :: 0 <= w < |s.workers| ==> !s.workers[w].Claimed?
  {
    CountIsZero(IsBlocked, s.workers);
    CountIsZero(IsLeft, s.workers);
    CountIsZero(IsClaimed, s.workers);
    assert forall w :: 0 <= w < |s.workers| ==> IsBlocked(s.workers[w]) == s.workers[w].Blocked?;
    assert forall w :: 0 <= w < |s.workers| ==> IsLeft(s.workers[w]) == s.workers[w].Left?;
    assert forall w :: 0 <= w < |s.workers| ==> IsClaimed(s.workers[w]) == s.workers[w].Claimed?;
  }

  /** How every count over the workers changes when worker `w` becomes `x`. */
  lemma WorkerChange(ws: seq<Worker>, w: nat, x: Worker)
    requires w < |ws|
    ensures Count(IsAtLoop, ws[w := x]) ==
            Count(IsAtLoop, ws) - (if ws[w].AtLoop? then 1 else 0) + (if x.AtLoop? then 1 else 0)
    ensures Count(IsBlocked, ws[w := x]) ==
            Count(IsBlocked, ws) - (if ws[w].Blocked? then 1 else 0) + (if x.Blocked? then 1 else 0)
    ensures Count(IsClaimed, ws[w := x]) ==
            Count(IsClaimed, ws) - (if ws[w].Claimed? then 1 else 0) + (if x.Claimed? then 1 else 0)
    ensures Count(IsLeft, ws[w := x]) == Count(IsLeft, ws) - (if ws[w].Left? then 1 else 0) + (if x.Left? then 1 else 0)
  {
    CountUpdate(IsAtLoop, ws, w, x);
    CountUpdate(IsBlocked, ws, w, x);
    CountUpdate(IsClaimed, ws, w, x);
    CountUpdate(IsLeft, ws, w, x);
  }

  lemma LockChange(ws: seq<Worker>, w: nat, x: Worker, q: nat)
    requires w < |ws|
    ensures Count(HoldsLock(q), ws[w := x])
         == Count(HoldsLock(q), ws) - (if HoldsLock(q)(ws[w]) then 1 else 0) + (if HoldsLock(q)(x) then 1 else 0)
  {
    CountUpdate(HoldsLock(q), ws, w, x);
  }

  lemma WorkerAdded(ws: seq<Worker>)
    ensures Count(IsAtLoop, ws + [AtLoop]) == Count(IsAtLoop, ws) + 1
    ensures Count(IsBlocked, ws + [AtLoop]) == Count(IsBlocked, ws)
    ensures Count(IsClaimed, ws + [AtLoop]) == Count(IsClaimed, ws)
    ensures Count(IsLeft, ws + [AtLoop]) == Count(IsLeft, ws)
    ensures forall q :: Count(HoldsLock(q), ws + [AtLoop]) == Count(HoldsLock(q), ws)
    ensures Gather(InHand, ws + [AtLoop]) == Gather(InHand, ws)
  {
    CountAppend(IsAtLoop, ws, AtLoop);
    CountAppend(IsBlocked, ws, AtLoop);
    CountAppend(IsClaimed, ws, AtLoop);
    CountAppend(IsLeft, ws, AtLoop);
    GatherAppend(InHand, ws, AtLoop);
    forall q ensures Count(HoldsLock(q), ws + [AtLoop]) == Count(HoldsLock(q), ws) {
      CountAppend(HoldsLock(q), ws, AtLoop);
    }
  }

  lemma AllUnblocked(ws: seq<Worker>)
    ensures Count(IsBlocked, Unblock(ws)) == 0
    ensures Count(IsClaimed, Unblock(ws)) == Count(IsClaimed, ws)
    ensures Count(IsLeft, Unblock(ws)) == Count(IsLeft, ws)
    ensures forall q :: Count(HoldsLock(q), Unblock(ws)) == Count(HoldsLock(q), ws)
    ensures Gather(InHand, Unblock(ws)) == Gather(InHand, ws)
  {
    CountIsZero(IsBlocked, Unblock(ws));
    CountSame(IsClaimed, Unblock(ws), ws);
    CountSame(IsLeft, Unblock(ws), ws);
    GatherSame(InHand, Unblock(ws), ws);
    forall q ensures Count(HoldsLock(q), Unblock(ws)) == Count(HoldsLock(q), ws) {
      CountSame(HoldsLock(q), Unblock(ws), ws);
    }
  }

  lemma ConservedStep(s: State, e: Step)
    requires Inv(s) && Enabled(s, e)
    ensures Conserved(Apply(s, e))
  {
    match e
    case CreateQueue =>
    case AddWorker => WorkerAdded(s.workers);
    case Schedule(_, _, woken) => if woken.Some? { WorkerChange(s.workers, woken.value, AtLoop); }
    case Section(w) => WorkerChange(s.workers, w, Apply(s, e).workers[w]);
    case Spurious(w) => WorkerChange(s.workers, w, AtLoop);
    case PopJob(w) =>
      CountsAreZero(s);
      WorkerChange(s.workers, w, Apply(s, e).workers[w]);
    case StartJob(w) => WorkerChange(s.workers, w, Apply(s, e).workers[w]);
    case FinishJob(w) => WorkerChange(s.workers, w, AtLoop);
    case Destroy => AllUnblocked(s.workers);
    case DeleteQueue(q) =>
    case RecheckQueue(q) =>
    case SpuriousQueue(q) =>
  }

  lemma AccountedSame(s: State, t: State)
    requires Accounted(s) && t.all == s.all && t.pool.queued == s.pool.queued && t.popped == s.popped
    requires t.ran == s.ran && t.discarded == s.discarded
    requires Gather(InHand, t.workers) == Gather(InHand, s.workers)
    ensures Accounted(t)
  {
  }

  lemma AccountedSchedule(s: State, t: State, j: Job)
    requires Accounted(s) && j.ticket == |s.all|
    requires t.all == s.all + [j] && t.pool.queued == s.pool.queued + [j]
    requires t.popped == s.popped && t.ran == s.ran && t.discarded == s.discarded
    requires Gather(InHand, t.workers) == Gather(InHand, s.workers)
    ensures Accounted(t)
  {
    assert multiset(t.all) == multiset(s.all) + multiset{j};
    assert multiset(t.pool.queued) == multiset(s.pool.queued) + multiset{j};
  }

  lemma AccountedPop(s: State, t: State, j: Job)
    requires Accounted(s) && t.all == s.all && t.ran == s.ran && t.discarded == s.discarded
    requires multiset(s.pool.queued) == multiset(t.pool.queued) + multiset{j}
    requires t.popped == s.popped + [j]
    requires Gather(InHand, t.workers) == Gather(InHand, s.workers) + multiset{j}
    ensures Accounted(t)
  {
    assert multiset(t.popped) == multiset(s.popped) + multiset{j};
    var hand := Gather(InHand, s.workers);
    assert (hand + s.ran + s.discarded) + multiset{j} == (hand + multiset{j}) + s.ran + s.discarded;
  }

  lemma AccountedFinish(s: State, t: State, j: Job)
    requires Accounted(s) && t.all == s.all && t.pool.queued == s.pool.queued && t.popped == s.popped
    requires Gather(InHand, s.workers) == Gather(InHand, t.workers) + multiset{j}
    requires t.ran + t.discarded == s.ran + s.discarded + multiset{j}
    ensures Accounted(t)
  {
    var hand := Gather(InHand, t.workers);
    assert (hand + multiset{j}) + s.ran + s.discarded == hand + (s.ran + s.discarded + multiset{j});
    assert hand + (t.ran + t.discarded) == hand + t.ran + t.discarded;
  }

  predicate MovesJob(e: Step) { e.Schedule? || e.PopJob? || e.FinishJob? }

  lemma QuietStep(s: State, e: Step)
    requires Enabled(s, e) && !MovesJob(e)
    ensures Gather(InHand, Apply(s, e).workers) == Gather(InHand, s.workers)
  {
    if e.AddWorker? {
      WorkerAdded(s.workers);
    } else if e.Destroy? {
      AllUnblocked(s.workers);
    } else if e.StartJob? {
      JobStarted(s, e);
    } else if e.Section? || e.Spurious? {
      GatherKeep(InHand, s.workers, e.w, Apply(s, e).workers[e.w]);
    }
  }

  lemma JobStarted(s: State, e: Step)
    requires Enabled(s, e) && e.StartJob?
    ensures Gather(InHand, Apply(s, e).workers) == Gather(InHand, s.workers)
  {
    GatherKeep(InHand, s.workers, e.w, Apply(s, e).workers[e.w]);
  }

  lemma JobPopped(s: State, e: Step)
    requires Enabled(s, e) && e.PopJob? && s.pool.queued != [] && Accounted(s)
    ensures Accounted(Apply(s, e))
  {
    var t := Apply(s, e);
    WithoutConserves(s.pool.queued, BestIndex(s.pool.queued));
    GatherGain(InHand, s.workers, e.w, t.workers[e.w]);
    AccountedPop(s, t, t.workers[e.w].job);
  }

  lemma JobFinished(s: State, e: Step)
    requires Enabled(s, e) && e.FinishJob? && Accounted(s)
    ensures Accounted(Apply(s, e))
  {
    GatherLoss(InHand, s.workers, e.w, AtLoop);
    FinishedOnce(s, e);
    AccountedFinish(s, Apply(s, e), s.workers[e.w].job);
  }

  lemma AccountedStep(s: State, e: Step)
    requires Conserved(s) && Accounted(s) && Enabled(s, e)
    ensures Accounted(Apply(s, e))
  {
    match e
    case Schedule(prio, q, woken) =>
      if woken.Some? { GatherKeep(InHand, s.workers, woken.value, AtLoop); }
      AccountedSchedule(s, Apply(s, e), Job(|s.all|, prio, q));
    case PopJob(w) =>
      CountsAreZero(s);
      JobPopped(s, e);
    case FinishJob(w) => JobFinished(s, e);
    case _ =>
      QuietStep(s, e);
      AccountedSame(s, Apply(s, e));
  }

  lemma FinishedOnce(s: State, e: Step)
    requires Enabled(s, e) && e.FinishJob?
    ensures Apply(s, e).ran + Apply(s, e).discarded == s.ran + s.discarded + multiset{s.workers[e.w].job}
  {
    var one := multiset{s.workers[e.w].job};
    assert (s.ran + one) + s.discarded == s.ran + s.discarded + one;
    assert s.ran + (s.discarded + one) == s.ran + s.discarded + one;
  }

  lemma TicketsKnown(s: State)
    requires Accounted(s)
    ensures forall a :: 0 <= a < |s.popped| ==> s.popped[a].ticket < |s.all|
    ensures forall a :: 0 <= a < |s.pool.queued| ==> s.pool.queued[a].ticket < |s.all|
  {
    forall j | j in multiset(s.popped) + multiset(s.pool.queued) ensures j.ticket < |s.all| {
      assert j in multiset(s.all);
      assert j in s.all;
    }
    assert forall a :: 0 <= a < |s.popped| ==> s.popped[a] in multiset(s.popped);
    assert forall a :: 0 <= a < |s.pool.queued| ==> s.pool.queued[a] in multiset(s.pool.queued);
  }

  lemma FifoSchedule(s: State, j: Job)
    requires Fifo(s) && Accounted(s) && j.ticket == |s.all|
    ensures Fifo(s.(pool := Scheduled(s.pool, j), all := s.all + [j]))
  {
    TicketsKnown(s);
  }

  lemma OrderWithout(q: seq<Job>, i: nat)
    requires i < |q| && InTicketOrder(q)
    ensures InTicketOrder(Without(q, i))
    ensures forall j :: j in Without(q, i) ==> j in q
  {
    SubsetWithout(q, i);
    var r := Without(q, i);
    forall a, b | 0 <= a < b < |r| ensures r[a].ticket < r[b].ticket {
      assert r[a] == q[if a < i then a else a + 1] && r[b] == q[if b < i then b else b + 1];
    }
  }

  /** The best job is older than every other queued job of its priority. */
  lemma BestIsOldest(q: seq<Job>)
    requires q != [] && InTicketOrder(q)
    ensures forall j :: j in Without(q, BestIndex(q)) ==>
      q[BestIndex(q)].prio < j.prio || (q[BestIndex(q)].prio == j.prio && q[BestIndex(q)].ticket < j.ticket)
  {
    var i := BestIndex(q);
    var r := Without(q, i);
    forall j | j in r ensures q[i].prio < j.prio || (q[i].prio == j.prio && q[i].ticket < j.ticket) {
      var k :| 0 <= k < |r| && r[k] == j;
      assert j == q[if k < i then k else k + 1];
    }
  }

  lemma PoppedNext(popped: seq<Job>, queued: seq<Job>, rest: seq<Job>, job: Job)
    requires PoppedFifo(popped, queued) && job in queued && forall j :: j in rest ==> j in queued
    requires forall j :: j in rest ==> job.prio < j.prio || (job.prio == j.prio && job.ticket < j.ticket)
    ensures PoppedFifo(popped + [job], rest)
  {
  }

  lemma FifoPop(s: State, t: State)
    requires Fifo(s) && s.pool.queued != []
    requires t.pool.queued == Without(s.pool.queued, BestIndex(s.pool.queued)) && t.all == s.all
    requires t.popped == s.popped + [s.pool.queued[BestIndex(s.pool.queued)]]
    ensures Fifo(t)
  {
    OrderWithout(s.pool.queued, BestIndex(s.pool.queued));
    BestIsOldest(s.pool.queued);
    PoppedNext(s.popped, s.pool.queued, t.pool.queued, s.pool.queued[BestIndex(s.pool.queued)]);
  }

  lemma FifoStep(s: State, e: Step)
    requires Conserved(s) && Accounted(s) && Fifo(s) && Enabled(s, e)
    ensures Fifo(Apply(s, e))
  {
    var t := Apply(s, e);
    if e.Schedule? {
      FifoSchedule(s, Job(|s.all|, e.prio, e.queue));
    } else if e.PopJob? {
      CountsAreZero(s);
      FifoPop(s, t);
    }
  }

  lemma WorkConservingStep(s: State, e: Step)
    requires Inv(s) && Enabled(s, e)
    ensures WorkConserving(Apply(s, e))
  {
    CountsAreZero(s);
    match e
    case CreateQueue =>
    case AddWorker => WorkerAdded(s.workers);
    case Schedule(_, _, woken) => if woken.Some? { WorkerChange(s.workers, woken.value, AtLoop); }
    case Section(w) => WorkerChange(s.workers, w, Apply(s, e).workers[w]);
    case Spurious(w) => WorkerChange(s.workers, w, AtLoop);
    case PopJob(w) => WorkerChange(s.workers, w, Apply(s, e).workers[w]);
    case StartJob(w) => WorkerChange(s.workers, w, Apply(s, e).workers[w]);
    case FinishJob(w) => WorkerChange(s.workers, w, AtLoop);
    case Destroy => AllUnblocked(s.workers);
    case DeleteQueue(q) =>
    case RecheckQueue(q) =>
    case SpuriousQueue(q) =>
  }

  lemma DrainedStep(s: State, e: Step)
    requires Inv(s) && Enabled(s, e)
    ensures Drained(Apply(s, e))
  {
    CountsAreZero(s);
    match e
    case CreateQueue =>
    case AddWorker => WorkerAdded(s.workers);
    case Schedule(_, _, woken) => if woken.Some? { WorkerChange(s.workers, woken.value, AtLoop); }
    case Section(w) => WorkerChange(s.workers, w, Apply(s, e).workers[w]);
    case Spurious(w) => WorkerChange(s.workers, w, AtLoop);
    case PopJob(w) => WorkerChange(s.workers, w, Apply(s, e).workers[w]);
    case StartJob(w) => WorkerChange(s.workers, w, Apply(s, e).workers[w]);
    case FinishJob(w) => WorkerChange(s.workers, w, AtLoop);
    case Destroy => AllUnblocked(s.workers);
    case DeleteQueue(q) =>
    case RecheckQueue(q) =>
    case SpuriousQueue(q) =>
  }

  /** A worker that takes or drops no lock leaves every queue as it was. */
  lemma LocksUntouched(queue: Queue, q: nat, ws: seq<Worker>, w: nat, x: Worker)
    requires QueueOk(queue, q, ws) && w < |ws|
    requires !ws[w].Running? && !ws[w].Discarding? && !x.Running? && !x.Discarding?
    ensures QueueOk(queue, q, ws[w := x])
  {
    LockChange(ws, w, x, q);
  }

  lemma LocksAllWoken(queue: Queue, q: nat, ws: seq<Worker>)
    requires QueueOk(queue, q, ws)
    ensures QueueOk(queue, q, Unblock(ws)) && QueueOk(queue, q, ws + [AtLoop])
  {
    AllUnblocked(ws);
    WorkerAdded(ws);
  }

  lemma LockTaken(queue: Queue, q: nat, ws: seq<Worker>, w: nat, j: Job)
    requires QueueOk(queue, q, ws) && w < |ws| && ws[w] == Popped(j)
    ensures j.queue == q ==> QueueOk(Started(queue), q, ws[w := if queue.isDeleted then Discarding(j) else Running(j)])
    ensures j.queue != q ==> QueueOk(queue, q, ws[w := Discarding(j)]) && QueueOk(queue, q, ws[w := Running(j)])
  {
    LockChange(ws, w, Discarding(j), q);
    LockChange(ws, w, Running(j), q);
  }

  lemma LockDropped(queue: Queue, q: nat, ws: seq<Worker>, w: nat, j: Job)
    requires QueueOk(queue, q, ws) && w < |ws| && (ws[w] == Running(j) || ws[w] == Discarding(j))
    ensures j.queue == q ==> queue.count > 0 && QueueOk(Finished(queue), q, ws[w := AtLoop])
    ensures j.queue != q ==> QueueOk(queue, q, ws[w := AtLoop])
  {
    LockChange(ws, w, AtLoop, q);
  }

  lemma LocksWhileDeleting(queue: Queue, q: nat, ws: seq<Worker>)
    requires QueueOk(queue, q, ws)
    ensures QueueOk(DeletionChecked(queue), q, ws)
  {
    CountIsZero(HoldsLock(q), ws);
    assert forall w :: 0 <= w < |ws| && ws[w].Running? && ws[w].job.queue == q ==> HoldsLock(q)(ws[w]);
  }

  lemma NewQueueUnlocked(s: State)
    requires JobsKnown(s)
    ensures QueueOk(Queue(0, false, NotDeleting), |s.queues|, s.workers)
  {
    CountIsZero(HoldsLock(|s.queues|), s.workers);
  }

  lemma SubsetWithout(q: seq<Job>, i: nat)
    requires i < |q|
    ensures forall j :: j in Without(q, i) ==> j in q
  {
    WithoutConserves(q, i);
    forall j | j in Without(q, i) ensures j in q {
      assert j in multiset(Without(q, i));
      assert j in multiset(q);
    }
  }

  lemma JobsKnownStep(s: State, e: Step)
    requires JobsKnown(s) && Enabled(s, e)
    ensures JobsKnown(Apply(s, e))
  {
    var t := Apply(s, e);
    match e
    case PopJob(w) =>
      if s.pool.queued != [] { SubsetWithout(s.pool.queued, BestIndex(s.pool.queued)); }
    case CreateQueue =>
    case AddWorker =>
    case Schedule(_, _, woken) =>
    case Section(w) =>
    case Spurious(w) =>
    case StartJob(w) =>
    case FinishJob(w) =>
    case Destroy =>
    case DeleteQueue(q) =>
    case RecheckQueue(q) =>
    case SpuriousQueue(q) =>
  }

  lemma QueueStep(s: State, e: Step, q: nat)
    requires QueuesOk(s) && Enabled(s, e) && q < |s.queues|
    ensures QueueOk(Apply(s, e).queues[q], q, Apply(s, e).workers)
  {
    var queue, ws, t := s.queues[q], s.workers, Apply(s, e);
    match e
    case CreateQueue =>
    case AddWorker => LocksAllWoken(queue, q, ws);
    case Schedule(_, _, woken) => if woken.Some? { LocksUntouched(queue, q, ws, woken.value, AtLoop); }
    case Section(w) => LocksUntouched(queue, q, ws, w, t.workers[w]);
    case Spurious(w) => LocksUntouched(queue, q, ws, w, AtLoop);
    case PopJob(w) => LocksUntouched(queue, q, ws, w, t.workers[w]);
    case StartJob(w) => LockTaken(queue, q, ws, w, ws[w].job);
    case FinishJob(w) => LockDropped(queue, q, ws, w, ws[w].job);
    case Destroy => LocksAllWoken(queue, q, ws);
    case DeleteQueue(d) => LocksWhileDeleting(queue, q, ws);
    case RecheckQueue(d) => LocksWhileDeleting(queue, q, ws);
    case SpuriousQueue(d) =>
  }

  lemma QueuesStep(s: State, e: Step)
    requires QueuesOk(s) && Enabled(s, e)
    ensures QueuesOk(Apply(s, e))
  {
    var t := Apply(s, e);
    JobsKnownStep(s, e);
    NewQueueUnlocked(s);
    forall q | 0 <= q < |t.queues| ensures QueueOk(t.queues[q], q, t.workers) {
      if q < |s.queues| { QueueStep(s, e, q); }
    }
  }

  lemma GoneStep(s: State, e: Step)
    requires Enabled(s, e)
    ensures forall q :: QueueGone(s, q) ==> QueueGone(Apply(s, e), q)
  {
  }

  lemma DiscardsAtFinish(s: State, e: Step)
    requires DiscardsJustified(s) && Enabled(s, e) && e.FinishJob?
    ensures forall k :: k in Apply(s, e).discarded ==> QueueGone(s, k.queue)
  {
    var j := s.workers[e.w].job;
    forall k | k in Apply(s, e).discarded ensures QueueGone(s, k.queue) {
      assert k in s.discarded || (k == j && s.workers[e.w].Discarding?);
    }
  }

  lemma DiscardsStep(s: State, e: Step)
    requires DiscardsJustified(s) && Enabled(s, e)
    ensures DiscardsJustified(Apply(s, e))
  {
    GoneStep(s, e);
    if e.FinishJob? { DiscardsAtFinish(s, e); }
    var t := Apply(s, e);
    forall w | 0 <= w < |t.workers| && t.workers[w].Discarding? ensures QueueGone(t, t.workers[w].job.queue) {
      if e.StartJob? && e.w == w {
        assert QueueGone(s, t.workers[w].job.queue);
      } else {
        assert w < |s.workers| && s.workers[w] == t.workers[w];
      }
    }
  }

  lemma InvStep(s: State, e: Step)
    requires Inv(s) && Enabled(s, e)
    ensures Inv(Apply(s, e))
  {
    ConservedStep(s, e);
    AccountedStep(s, e);
    FifoStep(s, e);
    WorkConservingStep(s, e);
    DrainedStep(s, e);
    QueuesStep(s, e);
    DiscardsStep(s, e);
  }

  lemma InvInit(s: State)
    requires Init(s)
    ensures Inv(s)
  {
    CountsAreZero(s);
    GatherToEmpty(InHand, s.workers, |s.workers|);
  }

  /** The invariant holds in every state of every run. */
  lemma {:induction false} InvAlways(r: seq<State>, i: nat)
    requires IsRun(r) && i < |r|
    ensures Inv(r[i])
  {
    if i == 0 {
      InvInit(r[0]);
    } else {
      InvAlways(r, i - 1);
      var e := StepOf(r, i);
      InvStep(r[i - 1], e);
    }
  }

  // ------------------------------------------------------------------
  // Results about every run

  /** The "JobQueue empty" defect is unreachable: the queue always covers the claims still to be popped. */
  lemma PopNeverFails(r: seq<State>, i: nat, w: nat)
    requires IsRun(r) && i < |r| && w < |r[i].workers| && r[i].workers[w].Claimed?
    ensures r[i].pool.queued != [] && !r[i].defect
    ensures |r[i].pool.queued| == r[i].pool.jobcount + Count(IsClaimed, r[i].workers)
  {
    InvAlways(r, i);
    CountsAreZero(r[i]);
  }

  lemma {:induction false} TicketedOnce(all: seq<Job>, j: Job)
    requires Ticketed(all)
    ensures multiset(all)[j] <= 1
    ensures multiset(all)[j] == 1 ==> j.ticket < |all|
  {
    if all != [] {
      var n := |all| - 1;
      TicketedOnce(all[..n], j);
      assert all == all[..n] + [all[n]];
    }
  }

  /**
   * Each job is popped at most once, and executed or dropped at most once, never
   * both; only jobs of deleted queues are dropped.
   */
  lemma AtMostOnce(r: seq<State>, i: nat, j: Job)
    requires IsRun(r) && i < |r|
    ensures multiset(r[i].pool.queued)[j] + multiset(r[i].popped)[j] <= 1
    ensures r[i].ran[j] + r[i].discarded[j] <= multiset(r[i].popped)[j]
    ensures r[i].discarded[j] > 0 ==> j.queue < |r[i].queues| && r[i].queues[j.queue].isDeleted
    ensures j in r[i].all ==> multiset(r[i].pool.queued)[j] + multiset(r[i].popped)[j] == 1
  {
    InvAlways(r, i);
    TicketedOnce(r[i].all, j);
    assert multiset(r[i].all)[j] == multiset(r[i].pool.queued)[j] + multiset(r[i].popped)[j];
    assert multiset(r[i].popped)[j] == Gather(InHand, r[i].workers)[j] + r[i].ran[j] + r[i].discarded[j];
    if j in r[i].all { assert j in multiset(r[i].all); }
    if r[i].discarded[j] > 0 { assert j in r[i].discarded; assert QueueGone(r[i], j.queue); }
  }

  lemma BestBeats(q: seq<Job>, other: Job)
    requires InTicketOrder(q) && other in q
    ensures var j := q[BestIndex(q)];
      j !in Without(q, BestIndex(q))
      && (j == other || j.prio < other.prio || (j.prio == other.prio && j.ticket < other.ticket))
  {
    BestIsOldest(q);
    WithoutConserves(q, BestIndex(q));
    assert other in multiset(q);
    assert other == q[BestIndex(q)] || other in multiset(Without(q, BestIndex(q)));
  }

  /** A pop takes the oldest job of the smallest priority number present. */
  lemma PopTakesBest(r: seq<State>, i: nat, w: nat, other: Job)
    requires IsRun(r) && i < |r| && w < |r[i].workers| && r[i].workers[w].Claimed?
    requires other in r[i].pool.queued
    ensures Apply(r[i], PopJob(w)).workers[w].Popped?
    ensures var j := Apply(r[i], PopJob(w)).workers[w].job;
      j in r[i].pool.queued && j !in Apply(r[i], PopJob(w)).pool.queued
      && (j == other || j.prio < other.prio || (j.prio == other.prio && j.ticket < other.ticket))
  {
    InvAlways(r, i);
    BestBeats(r[i].pool.queued, other);
  }

  /** A job scheduled with a smaller priority number than all that wait is the next one popped. */
  lemma UrgentJobIsNext(r: seq<State>, i: nat, prio: int, q: nat, woken: Option<nat>, w: nat)
    requires IsRun(r) && i < |r| && Enabled(r[i], Schedule(prio, q, woken))
    requires forall j :: j in r[i].pool.queued ==> prio < j.prio
    requires w < |r[i].workers| && r[i].workers[w].Claimed?
    ensures var t := Apply(Apply(r[i], Schedule(prio, q, woken)), PopJob(w));
      t.workers[w] == Popped(Job(|r[i].all|, prio, q)) && t.pool.queued == r[i].pool.queued
  {
    UrgentIsBest(r[i].pool.queued, Job(|r[i].all|, prio, q));
  }

  lemma UrgentIsBest(queued: seq<Job>, job: Job)
    requires forall j :: j in queued ==> job.prio < j.prio
    ensures BestIndex(queued + [job]) == |queued| && Without(queued + [job], |queued|) == queued
  {
    var all := queued + [job];
    assert all[|queued|] == job;
    forall k | 0 <= k < |queued| ensures job.prio < all[k].prio {
      assert all[k] == queued[k] && queued[k] in queued;
    }
  }

  /** Jobs of one priority are popped in the order in which they were scheduled. */
  lemma PoppedInOrder(r: seq<State>, i: nat, a: nat, b: nat)
    requires IsRun(r) && i < |r| && a < b < |r[i].popped| && r[i].popped[a].prio == r[i].popped[b].prio
    ensures r[i].popped[a].ticket < r[i].popped[b].ticket
  {
    InvAlways(r, i);
  }

  predicate WorkerStep(e: Step, w: nat) {
    (e.Section? || e.PopJob? || e.StartJob? || e.FinishJob?) && e.w == w
  }

  /** A worker that has not left and does not sleep can always move. */
  lemma AwakeCanMove(s: State, w: nat)
    requires Inv(s) && w < |s.workers| && !s.workers[w].Left? && !s.workers[w].Blocked?
    ensures exists e :: WorkerStep(e, w) && Enabled(s, e)
  {
    var e := match s.workers[w]
      case AtLoop => Section(w)
      case Claimed => PopJob(w)
      case Popped(_) => StartJob(w)
      case _ => FinishJob(w);
    assert WorkerStep(e, w) && Enabled(s, e);
  }

  /**
   * No wake-up is lost.  While the pool is alive a worker sleeps only if every
   * unclaimed job has its own awake worker heading for the lock, so with work
   * pending some worker can move; after destruction nobody sleeps.
   */
  lemma NoLostWakeup(r: seq<State>, i: nat)
    requires IsRun(r) && i < |r|
    ensures !r[i].pool.alive ==> forall w :: 0 <= w < |r[i].workers| ==> !r[i].workers[w].Blocked?
    ensures r[i].pool.alive && (exists w :: 0 <= w < |r[i].workers| && r[i].workers[w].Blocked?) ==>
              Count(IsAtLoop, r[i].workers) >= r[i].pool.jobcount
    ensures r[i].pool.alive && r[i].pool.jobcount > 0 && |r[i].workers| > 0 ==>
              exists w, e :: WorkerStep(e, w) && Enabled(r[i], e)
  {
    InvAlways(r, i);
    var s := r[i];
    CountsAreZero(s);
    CountIsZero(IsAtLoop, s.workers);
    if s.pool.alive && s.pool.jobcount > 0 && |s.workers| > 0 {
      var w := 0;
      if s.workers[0].Blocked? {
        w :| 0 <= w < |s.workers| && IsAtLoop(s.workers[w]);
      }
      AwakeCanMove(s, w);
      var e :| WorkerStep(e, w) && Enabled(s, e);
    }
  }

  /**
   * With completeAllJobsBeforeDestruction, at least one worker and nothing
   * scheduled after destruction, every job has been popped, and executed unless
   * its queue was deleted, by the time all workers have left.
   */
  lemma DrainsBeforeLeaving(r: seq<State>, i: nat, j: Job)
    requires IsRun(r) && i < |r|
    requires r[i].pool.completeAll && !r[i].late && |r[i].workers| > 0
    requires forall w :: 0 <= w < |r[i].workers| ==> r[i].workers[w].Left?
    requires j in r[i].all
    ensures r[i].pool.queued == [] && j in r[i].popped
    ensures r[i].ran[j] + r[i].discarded[j] == 1
    ensures (j.queue < |r[i].queues| && !r[i].queues[j.queue].isDeleted) ==> r[i].ran[j] == 1
  {
    InvAlways(r, i);
    AtMostOnce(r, i, j);
    CountsAreZero(r[i]);
    assert Count(IsLeft, r[i].workers) > 0;
    GatherToEmpty(InHand, r[i].workers, |r[i].workers|);
    assert j in multiset(r[i].popped);
  }

  /** Without that flag, leaving workers abandon what is still queued: jobs are dropped exactly because of it. */
  lemma AbandonsWithoutFlag() returns (r: seq<State>)
    ensures IsRun(r)
    ensures var s := r[|r| - 1];
      !s.pool.completeAll && !s.late && s.pool.queued != [] && s.workers == [Left]
  {
    var s0 := State(Pool(true, false, 0, []), [AtLoop], [], [], [], multiset{}, multiset{}, false, false);
    var s1 := Apply(s0, CreateQueue);
    var s2 := Apply(s1, Schedule(103, 0, None));
    var s3 := Apply(s2, Destroy);
    var s4 := Apply(s3, Section(0));
    r := [s0, s1, s2, s3, s4];
    assert Next(s0, s1) && Next(s1, s2) && Next(s2, s3) && Next(s3, s4);
    assert StepAt(r, 1) && StepAt(r, 2) && StepAt(r, 3) && StepAt(r, 4);
    assert IsRun(r);
  }

  /** The pool is being destroyed and does not complete its jobs. */
  predicate Abandoning(p: Pool) { !p.alive && !p.completeAll }

  ghost predicate NoNewClaims(s: State, t: State) {
    forall w :: 0 <= w < |t.workers| && t.workers[w].Claimed? ==> w < |s.workers| && s.workers[w].Claimed?
  }

  lemma AbandoningStep(s: State, e: Step)
    requires Enabled(s, e) && Abandoning(s.pool)
    ensures Abandoning(Apply(s, e).pool) && NoNewClaims(s, Apply(s, e))
    ensures Apply(s, e).pool.jobcount >= s.pool.jobcount
  {
  }

  /** Every run: once the pool without the flag is being destroyed no worker claims a job. */
  lemma {:induction false} NothingClaimedWithoutFlag(r: seq<State>, i: nat, k: nat)
    requires IsRun(r) && i <= k < |r| && Abandoning(r[i].pool)
    ensures Abandoning(r[k].pool) && NoNewClaims(r[i], r[k])
    ensures r[k].pool.jobcount >= r[i].pool.jobcount
    ensures Count(IsClaimed, r[k].workers) <= Count(IsClaimed, r[i].workers)
  {
    if i < k {
      NothingClaimedWithoutFlag(r, i, k - 1);
      var e := StepOf(r, k);
      AbandoningStep(r[k - 1], e);
    }
    CountFewer(IsClaimed, r[i].workers, r[k].workers);
  }

  /** With the flag, a job scheduled after the last worker has left is abandoned. */
  lemma AbandonsLateJob() returns (r: seq<State>)
    ensures IsRun(r)
    ensures var s := r[|r| - 1];
      s.pool.completeAll && s.late && s.pool.queued != [] && s.workers == [Left]
  {
    var s0 := State(Pool(true, true, 0, []), [AtLoop], [], [], [], multiset{}, multiset{}, false, false);
    var s1 := Apply(s0, CreateQueue);
    var s2 := Apply(s1, Destroy);
    var s3 := Apply(s2, Section(0));
    var s4 := Apply(s3, Schedule(103, 0, None));
    r := [s0, s1, s2, s3, s4];
    assert Next(s0, s1) && Next(s1, s2) && Next(s2, s3) && Next(s3, s4);
    assert StepAt(r, 1) && StepAt(r, 2) && StepAt(r, 3) && StepAt(r, 4);
    assert IsRun(r);
  }

  /** With the flag, but without a worker, a job scheduled in time is abandoned. */
  lemma AbandonsWithoutWorkers() returns (r: seq<State>)
    ensures IsRun(r)
    ensures var s := r[|r| - 1];
      s.pool.completeAll && !s.late && s.pool.queued != [] && s.workers == [] && !s.pool.alive
  {
    var s0 := State(Pool(true, true, 0, []), [], [], [], [], multiset{}, multiset{}, false, false);
    var s1 := Apply(s0, CreateQueue);
    var s2 := Apply(s1, Schedule(103, 0, None));
    var s3 := Apply(s2, Destroy);
    r := [s0, s1, s2, s3];
    assert Next(s0, s1) && Next(s1, s2) && Next(s2, s3);
    assert StepAt(r, 1) && StepAt(r, 2) && StepAt(r, 3);
    assert IsRun(r);
  }

  /** Weight of a worker: the steps left until it is back at the loop head, plus one to leave. */
  function Weight(w: Worker): nat {
    match w
    case Left => 0
    case AtLoop => 1
    case Blocked => 1
    case Running(_) => 2
    case Discarding(_) => 2
    case Popped(_) => 3
    case Claimed => 4
  }

  function Remaining(s: State): nat {
    Weigh(Weight, s.workers) + 4 * s.pool.jobcount
  }

  lemma UsesOneUnit(s: State, w: nat, e: Step)
    requires !s.pool.alive && Conserved(s) && WorkerStep(e, w) && Enabled(s, e)
    ensures Remaining(Apply(s, e)) == Remaining(s) - 1
  {
    CountsAreZero(s);
    WeighToUpdate(Weight, s.workers, w, Apply(s, e).workers[w], |s.workers|);
  }

  /**
   * Shutting down terminates: after destruction every step of a worker uses up
   * one unit of a measure, and unless all workers have left one of them can move.
   */
  lemma ShutdownProgress(r: seq<State>, i: nat, w: nat, e: Step)
    requires IsRun(r) && i < |r| && !r[i].pool.alive && WorkerStep(e, w) && Enabled(r[i], e)
    ensures Remaining(Apply(r[i], e)) == Remaining(r[i]) - 1
    ensures forall v :: 0 <= v < |r[i].workers| && !r[i].workers[v].Left? ==>
              exists f :: WorkerStep(f, v) && Enabled(r[i], f)
  {
    InvAlways(r, i);
    var s := r[i];
    CountsAreZero(s);
    UsesOneUnit(s, w, e);
    forall v | 0 <= v < |s.workers| && !s.workers[v].Left? ensures exists f :: WorkerStep(f, v) && Enabled(s, f) {
      AwakeCanMove(s, v);
    }
  }

  lemma ReturnedStep(s: State, e: Step, q: nat)
    requires Enabled(s, e) && q < |s.queues| && s.queues[q].deleter.Returned?
    ensures q < |Apply(s, e).queues| && Apply(s, e).queues[q].deleter.Returned?
  {
  }

  lemma {:induction false} StaysReturned(r: seq<State>, i: nat, k: nat, q: nat)
    requires IsRun(r) && i <= k < |r| && q < |r[i].queues| && r[i].queues[q].deleter.Returned?
    ensures q < |r[k].queues| && r[k].queues[q].deleter.Returned?
  {
    if i < k {
      StaysReturned(r, i, k - 1, q);
      var e := StepOf(r, k);
      ReturnedStep(r[k - 1], e, q);
    }
  }

  lemma RanStep(s: State, e: Step, j: Job)
    requires Enabled(s, e) && forall w :: 0 <= w < |s.workers| ==> s.workers[w] != Running(j)
    ensures Apply(s, e).ran[j] == s.ran[j]
  {
    if e.FinishJob? && s.workers[e.w].Running? {
      assert s.workers[e.w] == Running(s.workers[e.w].job);
      assert s.workers[e.w].job != j;
    }
  }

  /**
   * Queue deletion: once `deletingQueue` has returned for a queue, at no later
   * moment does any worker execute a job of that queue, whether it was already
   * popped, still queued, or scheduled afterwards; and none completes either.
   */
  lemma {:induction false} QueueDeletionSafety(r: seq<State>, i: nat, k: nat, q: nat, j: Job)
    requires IsRun(r) && i <= k < |r| && q < |r[i].queues| && r[i].queues[q].deleter.Returned?
    requires j.queue == q
    ensures forall w :: 0 <= w < |r[k].workers| ==> r[k].workers[w] != Running(j)
    ensures r[k].ran[j] == r[i].ran[j]
  {
    StaysReturned(r, i, k, q);
    InvAlways(r, k);
    assert QueueOk(r[k].queues[q], q, r[k].workers);
    if i < k {
      QueueDeletionSafety(r, i, k - 1, q, j);
      var e := StepOf(r, k);
      RanStep(r[k - 1], e, j);
    }
  }

  function Runs(q: nat): Worker -> bool {
    (w: Worker) => w.Running? && w.job.queue == q
  }

  /** Every worker that executes a job of `q` in state `t` was executing the same job in state `s`. */
  ghost predicate NoNewRuns(s: State, t: State, q: nat) {
    forall w :: 0 <= w < |t.workers| && Runs(q)(t.workers[w]) ==> w < |s.workers| && s.workers[w] == t.workers[w]
  }

  lemma DeletedStep(s: State, e: Step, q: nat)
    requires Enabled(s, e) && QueueGone(s, q)
    ensures QueueGone(Apply(s, e), q) && NoNewRuns(s, Apply(s, e), q)
  {
  }

  /** From the moment at which a queue is marked deleted no worker begins to execute one of its jobs. */
  lemma {:induction false} NoneBegins(r: seq<State>, i: nat, k: nat, q: nat)
    requires IsRun(r) && i <= k < |r| && QueueGone(r[i], q)
    ensures QueueGone(r[k], q) && NoNewRuns(r[i], r[k], q)
  {
    if i < k {
      NoneBegins(r, i, k - 1, q);
      var e := StepOf(r, k);
      DeletedStep(r[k - 1], e, q);
    }
  }

  /**
   * Queue deletion from its beginning, while it may still block: a job that is
   * not being executed when its queue is marked deleted never is and never
   * completes, wherever it is then, and the number of workers that execute jobs
   * of the queue never grows again.
   */
  lemma {:induction false} DeletionStopsJobs(r: seq<State>, i: nat, k: nat, q: nat, j: Job)
    requires IsRun(r) && i <= k < |r| && QueueGone(r[i], q)
    requires j.queue == q && forall w :: 0 <= w < |r[i].workers| ==> r[i].workers[w] != Running(j)
    ensures forall w :: 0 <= w < |r[k].workers| ==> r[k].workers[w] != Running(j)
    ensures r[k].ran[j] == r[i].ran[j]
    ensures Count(Runs(q), r[k].workers) <= Count(Runs(q), r[i].workers)
  {
    NoneBegins(r, i, k, q);
    CountFewer(Runs(q), r[i].workers, r[k].workers);
    forall w | 0 <= w < |r[k].workers| ensures r[k].workers[w] != Running(j) {
      assert r[k].workers[w].Running? && r[k].workers[w].job.queue == q ==> Runs(q)(r[k].workers[w]);
    }
    if i < k {
      DeletionStopsJobs(r, i, k - 1, q, j);
      var e := StepOf(r, k);
      RanStep(r[k - 1], e, j);
    }
  }

  lemma RunningStep(s: State, e: Step, w: nat, j: Job)
    requires Enabled(s, e) && w < |s.workers| && s.workers[w] == Running(j)
    ensures w < |Apply(s, e).workers| && Apply(s, e).ran[j] >= s.ran[j]
    ensures Apply(s, e).workers[w] == Running(j) || Apply(s, e).ran[j] == s.ran[j] + 1
  {
  }

  lemma RanGrows(s: State, e: Step, j: Job)
    requires Enabled(s, e)
    ensures Apply(s, e).ran[j] >= s.ran[j]
  {
  }

  /**
   * A job that a worker has begun is executed by this worker until it counts as
   * run, also when its queue is deleted.
   */
  lemma {:induction false} BegunJobCompletes(r: seq<State>, i: nat, k: nat, w: nat, j: Job)
    requires IsRun(r) && i <= k < |r| && w < |r[i].workers| && r[i].workers[w] == Running(j)
    ensures r[k].ran[j] >= r[i].ran[j]
    ensures (w < |r[k].workers| && r[k].workers[w] == Running(j)) || r[k].ran[j] > r[i].ran[j]
  {
    if i < k {
      BegunJobCompletes(r, i, k - 1, w, j);
      var e := StepOf(r, k);
      RanGrows(r[k - 1], e, j);
      if w < |r[k - 1].workers| && r[k - 1].workers[w] == Running(j) { RunningStep(r[k - 1], e, w, j); }
    }
  }

  /** A deletion that blocks is waiting for a worker that holds the lock, and the last one to finish wakes it. */
  lemma DeletionNotStuck(r: seq<State>, i: nat, q: nat)
    requires IsRun(r) && i < |r| && q < |r[i].queues| && r[i].queues[q].deleter.Blocking?
    ensures exists w :: (0 <= w < |r[i].workers| && HoldsLock(q)(r[i].workers[w])
                         && Enabled(r[i], FinishJob(w)) && Apply(r[i], FinishJob(w)).queues[q].deleter.Woken?)
  {
    InvAlways(r, i);
    assert QueueOk(r[i].queues[q], q, r[i].workers);
    CountIsZero(HoldsLock(q), r[i].workers);
    var w :| 0 <= w < |r[i].workers| && HoldsLock(q)(r[i].workers[w]);
    assert HasJob(r[i].workers[w]);
  }
}
