/**
 * Fetching a layer row by row.  Each run of the data fetcher fills one row of
 * tiles and passes the next row on, either inside the queue jumper it placed in
 * the pool's queue when it started, or as a new job when that jumper's turn has
 * already passed.  Workers may take queued jobs in any order; popping a job,
 * taking its QueueLock and calling it are separate steps.
 */
module FetchChain {

  import opened Arith
  import opened Counting
  import opened Wrappers

  // ------------------------------------------------------------------
  // QueueJumper

  /** `row` is the row of the fetcher passed to `setWork`; meaningful when `isSet`. */
  datatype Jumper = Jumper(inQueue: bool, isSet: bool, row: nat)

  const NEW_JUMPER := Jumper(true, false, 0)

  function AfterSetWork(j: Jumper, row: nat): Jumper {
    if j.inQueue then Jumper(true, true, row) else j
  }

  /** `operator()` has looked at `isSet`; without work it ends at once, otherwise when the work does. */
  function AfterBegin(j: Jumper): Jumper {
    if j.isSet then j else AfterEnd(j)
  }

  function AfterEnd(j: Jumper): Jumper {
    j.(inQueue := false)
  }

  /** Calls of `setWork`, one after the other. */
  function AfterCalls(j: Jumper, rows: seq<nat>): Jumper {
    if |rows| == 0 then j else AfterSetWork(AfterCalls(j, rows[..|rows| - 1]), rows[|rows| - 1])
  }

  /**
   * A jumper's turn runs the work that was passed last before it, if any; calls
   * of `setWork` after it has ended are refused and change nothing.
   */
  lemma {:induction false} RunsLastWork(before: seq<nat>, later: seq<nat>)
    ensures var j := AfterCalls(NEW_JUMPER, before);
      && j.inQueue && (j.isSet <==> |before| > 0) && (j.isSet ==> j.row == before[|before| - 1])
      && (AfterBegin(j).inQueue <==> j.isSet)
      && AfterCalls(AfterEnd(j), later) == AfterEnd(j)
  {
    if |before| > 0 { RunsLastWork(before[..|before| - 1], []); }
    if |later| > 0 { RunsLastWork(before, later[..|later| - 1]); }
  }

  class QueueJumper {
    var inQueue: bool
    var isSet: bool
    var fn: nat

    ghost function State(): Jumper
      reads this
    {
      Jumper(inQueue, isSet, fn)
    }

    constructor ()
      ensures State() == NEW_JUMPER
    {
      inQueue, isSet, fn := true, false, 0;
    }

    method SetWork(row: nat) returns (accepted: bool)
      modifies this
      ensures State() == AfterSetWork(old(State()), row) && accepted == old(inQueue)
    {
      if inQueue {
        fn := row;
        isSet := true;
      }
      accepted := inQueue;
    }

    /** `operator()` up to the call of `fn`, if there is one. */
    method Begin() returns (work: Option<nat>)
      modifies this
      ensures State() == AfterBegin(old(State()))
      ensures (work.Some? <==> State().isSet) && (work.Some? ==> work.value == State().row)
    {
      if isSet {
        return Some(fn);
      }
      inQueue := false;
      return None;
    }

    /** The rest of `operator()`, when `fn` has returned. */
    method End()
      modifies this
      ensures State() == AfterEnd(old(State()))
    {
      inQueue := false;
    }
  }

  // ------------------------------------------------------------------
  // The chain

  /** A layer of `height` > 0 lines in `rows` rows of tiles that are `T` lines high. */
  datatype Layer = Layer(height: nat, rows: nat, T: nat)

  ghost predicate ValidLayer(l: Layer) {
    l.T > 0 && l.rows > 0 && (l.rows - 1) * l.T < l.height <= l.rows * l.T
  }

  datatype Fill = Fill(startLine: int, lineCount: int)

  /** The call of `fillTiles` for one row. */
  function FillOf(l: Layer, row: nat): Fill {
    var left := l.height - row * l.T;
    Fill(row * l.T, if l.T < left then l.T else left)
  }

  function Fills(l: Layer, n: nat): seq<Fill> {
    seq(n, (row: nat) => FillOf(l, row))
  }

  /**
   * Where a job is: in the pool's queue; popped by a worker that has not taken
   * the QueueLock yet; with the lock, which says whether the queue existed;
   * called, and which run it started if any; or dropped because the queue did not
   * exist.
   */
  datatype Stage = Queued | Taken | Locked(valid: bool) | Called(run: Option<nat>) | Gone

  /** A job of the chain, known by its position: the fetcher for a row, or a jumper. */
  datatype Job = FetchJob(row: nat, stage: Stage) | JumperJob(jumper: Jumper, stage: Stage)

  /**
   * A run of the fetcher: entered; its jumper is in the queue; its tiles are
   * filled; `setWork` has refused; the next row is passed on; returned.
   */
  datatype Phase = Entered | Fetching(jumper: nat) | Filled(jumper: nat) | Refused | Leaving | Ended

  /** `inside` is the jumper that called this run, if one did; it is called with that jumper's mutex held. */
  datatype Run = Run(row: nat, inside: Option<nat>, phase: Phase)

  /** What carries the chain: a job, a run that has not passed it on; history, never read by the program. */
  datatype Place = Scheduled(row: nat, n: nat) | Riding(row: nat, n: nat) | Active(i: nat) | Done | Dropped(row: nat)

  datatype State = State(
    queueAlive: bool,
    jobs: seq<Job>,
    runs: seq<Run>,
    log: seq<Fill>,
    finished: nat,
    place: Place)

  /** One step for each section under a mutex. */
  datatype Step =
    | Take(n: nat) | Lock(n: nat) | Call(n: nat) | Drop(n: nat)
    | Open(i: nat) | FillRow(i: nat) | PassOn(i: nat) | Reschedule(i: nat) | End(i: nat)
    | DeleteQueue

  predicate IsJumper(s: State, n: nat) { n < |s.jobs| && s.jobs[n].JumperJob? }

  predicate Enabled(s: State, e: Step) {
    match e
    case Take(n) => n < |s.jobs| && s.jobs[n].stage.Queued?
    case Lock(n) => n < |s.jobs| && s.jobs[n].stage.Taken?
    case Call(n) => n < |s.jobs| && s.jobs[n].stage == Locked(true)
    case Drop(n) => n < |s.jobs| && s.jobs[n].stage == Locked(false)
    case Open(i) => i < |s.runs| && s.runs[i].phase.Entered?
    case FillRow(i) => i < |s.runs| && s.runs[i].phase.Fetching?
    case PassOn(i) => i < |s.runs| && s.runs[i].phase.Filled? && IsJumper(s, s.runs[i].phase.jumper)
    case Reschedule(i) => i < |s.runs| && s.runs[i].phase.Refused?
    case End(i) =>
      i < |s.runs| && s.runs[i].phase.Leaving? &&
      (s.runs[i].inside.Some? ==> IsJumper(s, s.runs[i].inside.value))
    case DeleteQueue => s.queueAlive
  }

  function Staged(s: State, n: nat, stage: Stage): State
    requires n < |s.jobs|
  {
    s.(jobs := s.jobs[n := s.jobs[n].(stage := stage)])
  }

  function Phased(s: State, i: nat, phase: Phase): State
    requires i < |s.runs|
  {
    s.(runs := s.runs[i := s.runs[i].(phase := phase)])
  }

  function Jumped(s: State, n: nat, j: Jumper): State
    requires IsJumper(s, n)
  {
    s.(jobs := s.jobs[n := s.jobs[n].(jumper := j)])
  }

  /** A run of the fetcher is entered. */
  function Entering(s: State, n: nat, row: nat, inside: Option<nat>): State
    requires n < |s.jobs|
  {
    var i := |s.runs|;
    Staged(s, n, Called(Some(i))).(runs := s.runs + [Run(row, inside, Entered)], place := Active(i))
  }

  predicate Carries(p: Place, n: nat) {
    (p.Scheduled? || p.Riding?) && p.n == n
  }

  /** The job will be called, unless the queue is deleted before a worker takes the lock. */
  predicate CanRun(stage: Stage) {
    stage.Queued? || stage.Taken? || stage == Locked(true)
  }

  function Apply(l: Layer, s: State, e: Step): State
    requires Enabled(s, e)
  {
    match e
    case Take(n) => Staged(s, n, Taken)
    case Lock(n) =>
      var t := Staged(s, n, Locked(s.queueAlive));
      if !s.queueAlive && Carries(s.place, n) then t.(place := Dropped(s.place.row)) else t
    case Call(n) => (
      match s.jobs[n]
      case FetchJob(row, _) => Entering(s, n, row, None)
      case JumperJob(j, _) =>
        if j.isSet then Entering(s, n, j.row, Some(n)) else Staged(Jumped(s, n, AfterBegin(j)), n, Called(None)))
    case Drop(n) => Staged(s, n, Gone)
    case Open(i) => Phased(s, i, Fetching(|s.jobs|)).(jobs := s.jobs + [JumperJob(NEW_JUMPER, Queued)])
    case FillRow(i) => Phased(s, i, Filled(s.runs[i].phase.jumper)).(log := s.log + [FillOf(l, s.runs[i].row)])
    case PassOn(i) =>
      var row, n := s.runs[i].row + 1, s.runs[i].phase.jumper;
      if row >= l.rows then Phased(s, i, Leaving).(finished := s.finished + 1, place := Done)
      else if s.jobs[n].jumper.inQueue then
        Phased(Jumped(s, n, AfterSetWork(s.jobs[n].jumper, row)), i, Leaving).(
          place := if CanRun(s.jobs[n].stage) then Riding(row, n) else Dropped(row))
      else Phased(s, i, Refused)
    case Reschedule(i) =>
      var row := s.runs[i].row + 1;
      Phased(s, i, Leaving).(jobs := s.jobs + [FetchJob(row, Queued)], place := Scheduled(row, |s.jobs|))
    case End(i) =>
      var t := Phased(s, i, Ended);
      if s.runs[i].inside.None? then t
      else Jumped(t, s.runs[i].inside.value, AfterEnd(t.jobs[s.runs[i].inside.value].jumper))
    case DeleteQueue => s.(queueAlive := false)
  }

  ghost predicate Init(s: State) {
    s == State(true, [FetchJob(0, Queued)], [], [], 0, Scheduled(0, 0))
  }

  ghost predicate StepAt(l: Layer, r: seq<State>, es: seq<Step>, k: nat)
    requires |r| == |es| + 1 && k < |es|
  {
    Enabled(r[k], es[k]) && r[k + 1] == Apply(l, r[k], es[k])
  }

  ghost predicate IsRun(l: Layer, r: seq<State>, es: seq<Step>) {
    && |r| == |es| + 1 && Init(r[0])
    && forall k {:trigger StepAt(l, r, es, k)} :: 0 <= k < |es| ==> StepAt(l, r, es, k)
  }

  // ------------------------------------------------------------------
  // Invariant: the chain is in exactly one place

  /** A run that has not passed the chain on. */
  predicate Busy(p: Phase) { p.Entered? || p.Fetching? || p.Filled? || p.Refused? }

  /** The number of rows that have been filled. */
  function RowsFilled(l: Layer, s: State): nat {
    match s.place
    case Scheduled(row, _) => row
    case Riding(row, _) => row
    case Active(i) => i + (if i < |s.runs| && (s.runs[i].phase.Filled? || s.runs[i].phase.Refused?) then 1 else 0)
    case Done => l.rows
    case Dropped(row) => row
  }

  /** Run `i` is the one that job `n` started. */
  predicate RunIs(s: State, i: nat, row: nat, inside: Option<nat>) {
    i < |s.runs| && s.runs[i].row == row && s.runs[i].inside == inside
  }

  predicate FetchJobOk(s: State, n: nat)
    requires n < |s.jobs| && s.jobs[n].FetchJob?
  {
    var row, st := s.jobs[n].row, s.jobs[n].stage;
    && (CanRun(st) <==> s.place == Scheduled(row, n))
    && (st.Called? ==> st.run.Some? && RunIs(s, st.run.value, row, None))
  }

  /**
   * A jumper refuses only after it was called; it is set only while it carries the
   * chain or when it can no longer run idle.
   */
  predicate JumperJobOk(s: State, n: nat)
    requires n < |s.jobs| && s.jobs[n].JumperJob?
  {
    var j, st := s.jobs[n].jumper, s.jobs[n].stage;
    && (CanRun(st) ==> (j.isSet <==> s.place == Riding(j.row, n)))
    && (s.place.Riding? && s.place.n == n ==> CanRun(st) && j.isSet && j.row == s.place.row)
    && (j.inQueue || st.Called?)
    && (st.Called? ==> (st.run.Some? <==> j.isSet) && (!j.isSet ==> !j.inQueue))
    && (st.Called? && st.run.Some? ==> RunIs(s, st.run.value, j.row, Some(n)))
  }

  predicate JobOk(s: State, n: nat)
    requires n < |s.jobs|
  {
    && (if s.jobs[n].FetchJob? then FetchJobOk(s, n) else JumperJobOk(s, n))
    && (s.jobs[n].stage == Locked(false) || s.jobs[n].stage.Gone? ==> !s.queueAlive)
  }

  predicate RunOk(l: Layer, s: State, i: nat)
    requires i < |s.runs|
  {
    var run := s.runs[i];
    && run.row == i < l.rows
    && (Busy(run.phase) <==> s.place == Active(i))
    && (run.inside.Some? ==> IsJumper(s, run.inside.value) && s.jobs[run.inside.value].stage == Called(Some(i)))
    && (run.phase.Fetching? || run.phase.Filled? ==>
          IsJumper(s, run.phase.jumper) && !s.jobs[run.phase.jumper].jumper.isSet)
    && (run.phase.Refused? ==> i + 1 < l.rows)
  }

  predicate PlaceOk(l: Layer, s: State) {
    match s.place
    case Scheduled(row, n) =>
      row == |s.runs| < l.rows && n < |s.jobs| && s.jobs[n].FetchJob? &&
      s.jobs[n].row == row && CanRun(s.jobs[n].stage)
    case Riding(row, n) => row == |s.runs| < l.rows && IsJumper(s, n)
    case Active(i) => i + 1 == |s.runs|
    case Done => true
    case Dropped(row) => row == |s.runs| < l.rows && !s.queueAlive
  }

  ghost predicate Inv(l: Layer, s: State) {
    && (forall n {:trigger JobOk(s, n)} :: 0 <= n < |s.jobs| ==> JobOk(s, n))
    && (forall i {:trigger RunOk(l, s, i)} :: 0 <= i < |s.runs| ==> RunOk(l, s, i))
    && PlaceOk(l, s)
    && s.log == Fills(l, RowsFilled(l, s))
    && s.finished == (if s.place.Done? then 1 else 0)
  }

  lemma FillsNext(l: Layer, n: nat)
    ensures Fills(l, n) + [FillOf(l, n)] == Fills(l, n + 1)
  {
  }

  lemma JobOfInv(l: Layer, s: State, n: nat)
    requires Inv(l, s) && n < |s.jobs|
    ensures JobOk(s, n)
  {
  }

  lemma RunOfInv(l: Layer, s: State, i: nat)
    requires Inv(l, s) && i < |s.runs|
    ensures RunOk(l, s, i)
  {
  }

  /** The runs keep their order when one job changes its stage and starts none. */
  lemma StageRuns(l: Layer, s: State, t: State, n: nat)
    requires Inv(l, s) && n < |s.jobs| == |t.jobs| && t.runs == s.runs && !s.jobs[n].stage.Called?
    requires forall m | 0 <= m < |s.jobs| && m != n :: t.jobs[m] == s.jobs[m]
    requires t.jobs[n].JumperJob? == s.jobs[n].JumperJob?
    requires t.jobs[n].JumperJob? ==> t.jobs[n].jumper.isSet == s.jobs[n].jumper.isSet
    requires t.place.Active? || s.place.Active? ==> t.place == s.place
    ensures forall i {:trigger RunOk(l, t, i)} :: 0 <= i < |t.runs| ==> RunOk(l, t, i)
  {
    forall i | 0 <= i < |t.runs| ensures RunOk(l, t, i) { RunOfInv(l, s, i); }
  }

  lemma TakeStep(l: Layer, s: State, n: nat)
    requires Inv(l, s) && Enabled(s, Take(n))
    ensures Inv(l, Apply(l, s, Take(n)))
  {
    var t := Apply(l, s, Take(n));
    StageRuns(l, s, t, n);
    forall m | 0 <= m < |t.jobs| ensures JobOk(t, m) { JobOfInv(l, s, m); }
  }

  lemma LockStep(l: Layer, s: State, n: nat)
    requires Inv(l, s) && Enabled(s, Lock(n))
    ensures Inv(l, Apply(l, s, Lock(n)))
  {
    var t := Apply(l, s, Lock(n));
    JobOfInv(l, s, n);
    StageRuns(l, s, t, n);
    forall m | 0 <= m < |t.jobs| ensures JobOk(t, m) { JobOfInv(l, s, m); }
  }

  lemma DropStep(l: Layer, s: State, n: nat)
    requires Inv(l, s) && Enabled(s, Drop(n))
    ensures Inv(l, Apply(l, s, Drop(n)))
  {
    var t := Apply(l, s, Drop(n));
    JobOfInv(l, s, n);
    StageRuns(l, s, t, n);
    forall m | 0 <= m < |t.jobs| ensures JobOk(t, m) { JobOfInv(l, s, m); }
  }

  /** A jumper's turn comes while it has no work. */
  lemma IdleStep(l: Layer, s: State, n: nat)
    requires Inv(l, s) && Enabled(s, Call(n)) && s.jobs[n].JumperJob? && !s.jobs[n].jumper.isSet
    ensures Inv(l, Apply(l, s, Call(n)))
  {
    var t := Apply(l, s, Call(n));
    JobOfInv(l, s, n);
    StageRuns(l, s, t, n);
    forall m | 0 <= m < |t.jobs| ensures JobOk(t, m) { JobOfInv(l, s, m); }
  }

  /** The job that carries the chain is called and a run of the fetcher is entered. */
  lemma CallStarts(l: Layer, s: State, n: nat)
    requires Inv(l, s) && Enabled(s, Call(n)) && (s.jobs[n].FetchJob? || s.jobs[n].jumper.isSet)
    ensures Carries(s.place, n) && Apply(l, s, Call(n)).place == Active(|s.runs|)
    ensures Inv(l, Apply(l, s, Call(n)))
  {
    var t := Apply(l, s, Call(n));
    JobOfInv(l, s, n);
    forall m | 0 <= m < |t.jobs| ensures JobOk(t, m) { JobOfInv(l, s, m); }
    forall i | 0 <= i < |t.runs| ensures RunOk(l, t, i) {
      if i < |s.runs| { RunOfInv(l, s, i); }
    }
  }

  lemma OpenStep(l: Layer, s: State, i: nat)
    requires Inv(l, s) && Enabled(s, Open(i))
    ensures Inv(l, Apply(l, s, Open(i)))
  {
    var t := Apply(l, s, Open(i));
    RunOfInv(l, s, i);
    forall m | 0 <= m < |t.jobs| ensures JobOk(t, m) {
      if m < |s.jobs| { JobOfInv(l, s, m); }
    }
    forall k | 0 <= k < |t.runs| ensures RunOk(l, t, k) { RunOfInv(l, s, k); }
  }

  lemma FillStep(l: Layer, s: State, i: nat)
    requires Inv(l, s) && Enabled(s, FillRow(i))
    ensures Inv(l, Apply(l, s, FillRow(i)))
  {
    var t := Apply(l, s, FillRow(i));
    RunOfInv(l, s, i);
    FillsNext(l, i);
    forall m | 0 <= m < |t.jobs| ensures JobOk(t, m) { JobOfInv(l, s, m); }
    forall k | 0 <= k < |t.runs| ensures RunOk(l, t, k) { RunOfInv(l, s, k); }
  }

  lemma PassOnJobs(l: Layer, s: State, i: nat)
    requires Inv(l, s) && Enabled(s, PassOn(i))
    ensures var t := Apply(l, s, PassOn(i)); forall m {:trigger JobOk(t, m)} :: 0 <= m < |t.jobs| ==> JobOk(t, m)
    ensures PlaceOk(l, Apply(l, s, PassOn(i)))
  {
    var t := Apply(l, s, PassOn(i));
    RunOfInv(l, s, i);
    JobOfInv(l, s, s.runs[i].phase.jumper);
    forall m | 0 <= m < |t.jobs| ensures JobOk(t, m) { JobOfInv(l, s, m); }
  }

  lemma PassOnStep(l: Layer, s: State, i: nat)
    requires Inv(l, s) && Enabled(s, PassOn(i))
    ensures Inv(l, Apply(l, s, PassOn(i)))
  {
    var t := Apply(l, s, PassOn(i));
    PassOnJobs(l, s, i);
    RunOfInv(l, s, i);
    forall k | 0 <= k < |t.runs| ensures RunOk(l, t, k) { RunOfInv(l, s, k); }
  }

  lemma RescheduleStep(l: Layer, s: State, i: nat)
    requires Inv(l, s) && Enabled(s, Reschedule(i))
    ensures Inv(l, Apply(l, s, Reschedule(i)))
  {
    var t := Apply(l, s, Reschedule(i));
    RunOfInv(l, s, i);
    forall m | 0 <= m < |t.jobs| ensures JobOk(t, m) {
      if m < |s.jobs| { JobOfInv(l, s, m); }
    }
    forall k | 0 <= k < |t.runs| ensures RunOk(l, t, k) { RunOfInv(l, s, k); }
  }

  lemma EndJobs(l: Layer, s: State, i: nat)
    requires Inv(l, s) && Enabled(s, End(i))
    ensures var t := Apply(l, s, End(i)); forall m {:trigger JobOk(t, m)} :: 0 <= m < |t.jobs| ==> JobOk(t, m)
  {
    var t := Apply(l, s, End(i));
    RunOfInv(l, s, i);
    if s.runs[i].inside.Some? { JobOfInv(l, s, s.runs[i].inside.value); }
    forall m | 0 <= m < |t.jobs| ensures JobOk(t, m) { JobOfInv(l, s, m); }
  }

  lemma EndRun(l: Layer, s: State, i: nat, k: nat)
    requires Inv(l, s) && Enabled(s, End(i)) && k < |s.runs|
    ensures RunOk(l, Apply(l, s, End(i)), k)
  {
    RunOfInv(l, s, i);
    RunOfInv(l, s, k);
  }

  lemma EndStep(l: Layer, s: State, i: nat)
    requires Inv(l, s) && Enabled(s, End(i))
    ensures Inv(l, Apply(l, s, End(i)))
  {
    var t := Apply(l, s, End(i));
    EndJobs(l, s, i);
    RunOfInv(l, s, i);
    forall k | 0 <= k < |t.runs| ensures RunOk(l, t, k) { EndRun(l, s, i, k); }
  }

  lemma DeleteStep(l: Layer, s: State)
    requires Inv(l, s) && Enabled(s, DeleteQueue)
    ensures Inv(l, Apply(l, s, DeleteQueue))
  {
    var t := Apply(l, s, DeleteQueue);
    forall m | 0 <= m < |t.jobs| ensures JobOk(t, m) { JobOfInv(l, s, m); }
    forall i | 0 <= i < |t.runs| ensures RunOk(l, t, i) { RunOfInv(l, s, i); }
  }

  lemma InvStep(l: Layer, s: State, e: Step)
    requires Inv(l, s) && Enabled(s, e)
    ensures Inv(l, Apply(l, s, e))
  {
    match e
    case Take(n) => TakeStep(l, s, n);
    case Lock(n) => LockStep(l, s, n);
    case Drop(n) => DropStep(l, s, n);
    case Call(n) =>
      if s.jobs[n].FetchJob? || s.jobs[n].jumper.isSet {
        CallStarts(l, s, n);
      } else {
        IdleStep(l, s, n);
      }
    case Open(i) => OpenStep(l, s, i);
    case FillRow(i) => FillStep(l, s, i);
    case PassOn(i) => PassOnStep(l, s, i);
    case Reschedule(i) => RescheduleStep(l, s, i);
    case End(i) => EndStep(l, s, i);
    case DeleteQueue => DeleteStep(l, s);
  }

  lemma {:induction false} InvAlways(l: Layer, r: seq<State>, es: seq<Step>, k: nat)
    requires ValidLayer(l) && IsRun(l, r, es) && k < |r|
    ensures Inv(l, r[k])
  {
    if k > 0 {
      InvAlways(l, r, es, k - 1);
      assert StepAt(l, r, es, k - 1);
      InvStep(l, r[k - 1], es[k - 1]);
    } else {
      assert JobOk(r[0], 0);
    }
  }

  // ------------------------------------------------------------------
  // Results about every run

  /** Line `y` belongs to the call for one row. */
  predicate Covers(f: Fill, y: int) { f.startLine <= y < f.startLine + f.lineCount }

  lemma RowOfLine(y: nat, T: nat, row: nat)
    requires T > 0
    ensures row * T <= y < row * T + T <==> y / T == row
  {
    assert y == y / T * T + y % T;
    if row * T <= y < row * T + T { DivModUnique(y, T, row, y - row * T); }
  }

  /**
   * The calls for all rows partition the lines of the layer: each has lines, all
   * inside, and each line is in the call of row y / T only.
   */
  lemma FillsPartition(l: Layer, row: nat, y: nat)
    requires ValidLayer(l) && row < l.rows
    ensures FillOf(l, row).lineCount > 0
    ensures Covers(FillOf(l, row), y) <==> y < l.height && y / l.T == row
  {
    MulMonotone(row + 1, l.rows, l.T);
    MulMonotone(row, l.rows - 1, l.T);
    NextProduct(row, l.T);
    RowOfLine(y, l.T, row);
  }

  /**
   * Rows are fetched once each and in order, each by its own run; at most one
   * run has not passed the chain on, and the finish callback has fired exactly
   * when all rows are filled and none such is left, never twice.
   */
  lemma FetchedInOrder(l: Layer, r: seq<State>, es: seq<Step>, k: nat)
    requires ValidLayer(l) && IsRun(l, r, es) && k < |r|
    ensures |r[k].log| <= l.rows && r[k].log == Fills(l, |r[k].log|)
    ensures forall i | 0 <= i < |r[k].runs| :: r[k].runs[i].row == i
    ensures forall i | 0 <= i < |r[k].runs| :: Busy(r[k].runs[i].phase) ==> i == |r[k].runs| - 1
    ensures r[k].finished == 1 <==> |r[k].log| == l.rows && forall i | 0 <= i < |r[k].runs| :: !Busy(r[k].runs[i].phase)
    ensures r[k].finished <= 1
  {
    InvAlways(l, r, es, k);
    var s := r[k];
    forall i | 0 <= i < |s.runs| ensures s.runs[i].row == i && (Busy(s.runs[i].phase) <==> s.place == Active(i)) {
      RunOfInv(l, s, i);
    }
    if s.place.Active? { RunOfInv(l, s, s.place.i); }
  }

  /** `setWork` is refused exactly when the jumper's `operator()` has been called. */
  lemma SetWorkAnswer(l: Layer, r: seq<State>, es: seq<Step>, k: nat, i: nat)
    requires ValidLayer(l) && IsRun(l, r, es) && k < |r| && i < |r[k].runs| && r[k].runs[i].phase.Filled?
    ensures IsJumper(r[k], r[k].runs[i].phase.jumper)
    ensures var job := r[k].jobs[r[k].runs[i].phase.jumper]; job.jumper.inQueue <==> !job.stage.Called?
  {
    InvAlways(l, r, es, k);
    RunOfInv(l, r[k], i);
    JobOfInv(l, r[k], r[k].runs[i].phase.jumper);
  }

  /**
   * Handing the next row over: the jumper takes it, and the run leaves, exactly
   * as long as the jumper has not been called; otherwise the jumper stays as it
   * was and the run has to schedule the row itself.  The jumper is the one that
   * `setWork` leaves, and its answer decides.
   */
  lemma HandsOver(l: Layer, r: seq<State>, es: seq<Step>, k: nat, i: nat)
    requires ValidLayer(l) && IsRun(l, r, es) && k < |es| && es[k] == PassOn(i)
    requires i < |r[k].runs| && r[k].runs[i].row + 1 < l.rows
    ensures i < |r[k + 1].runs| && r[k].runs[i].phase.Filled?
    ensures var n, row := r[k].runs[i].phase.jumper, r[k].runs[i].row + 1;
      && IsJumper(r[k], n) && IsJumper(r[k + 1], n)
      && r[k + 1].jobs[n].jumper == AfterSetWork(r[k].jobs[n].jumper, row)
      && r[k + 1].jobs[n].stage == r[k].jobs[n].stage
      && (r[k + 1].jobs[n].jumper.isSet && r[k + 1].jobs[n].jumper.row == row <==> !r[k].jobs[n].stage.Called?)
      && (r[k].jobs[n].jumper.inQueue <==> !r[k].jobs[n].stage.Called?)
      && r[k + 1].runs[i].phase == if r[k].jobs[n].stage.Called? then Refused else Leaving
  {
    assert StepAt(l, r, es, k);
    SetWorkAnswer(l, r, es, k, i);
    InvAlways(l, r, es, k);
    RunOfInv(l, r[k], i);
  }

  /** Passing on changes no other job, and the fetcher of the last row passes nothing on but finishes. */
  lemma HandsOverNothingElse(l: Layer, r: seq<State>, es: seq<Step>, k: nat, i: nat)
    requires ValidLayer(l) && IsRun(l, r, es) && k < |es| && es[k] == PassOn(i)
    ensures i < |r[k].runs| && r[k].runs[i].phase.Filled?
    ensures |r[k + 1].jobs| == |r[k].jobs|
    ensures forall m :: 0 <= m < |r[k].jobs| && m != r[k].runs[i].phase.jumper ==> r[k + 1].jobs[m] == r[k].jobs[m]
    ensures r[k].runs[i].row + 1 >= l.rows ==> r[k + 1].jobs == r[k].jobs
    ensures r[k].runs[i].row + 1 >= l.rows ==> r[k + 1].finished == 1 && r[k].finished == 0
  {
    assert StepAt(l, r, es, k);
    InvAlways(l, r, es, k);
    RunOfInv(l, r[k], i);
  }

  /** A row that was refused is scheduled as a job of its own. */
  lemma RefusedRowIsScheduled(l: Layer, r: seq<State>, es: seq<Step>, k: nat, i: nat)
    requires ValidLayer(l) && IsRun(l, r, es) && k < |es| && es[k] == Reschedule(i)
    ensures i < |r[k].runs| && i < |r[k + 1].runs| && r[k].runs[i].row + 1 < l.rows
    ensures r[k + 1].jobs == r[k].jobs + [FetchJob(r[k].runs[i].row + 1, Queued)] && r[k + 1].runs[i].phase.Leaving?
  {
    assert StepAt(l, r, es, k);
    InvAlways(l, r, es, k);
    RunOfInv(l, r[k], i);
  }

  /** The work that jumper `n` accepted has been started. */
  ghost predicate HasRun(s: State, n: nat)
    requires IsJumper(s, n)
  {
    exists i :: 0 <= i < |s.runs| && s.runs[i].inside == Some(n) && s.runs[i].row == s.jobs[n].jumper.row
  }

  /** What the lock says stays decisive. */
  predicate Decided(stage: Stage, valid: bool) {
    if valid then stage == Locked(true) || stage.Called? else stage == Locked(false) || stage.Gone?
  }

  lemma DecidedStep(l: Layer, s: State, e: Step, n: nat, valid: bool)
    requires Enabled(s, e) && n < |s.jobs| && Decided(s.jobs[n].stage, valid)
    ensures n < |Apply(l, s, e).jobs| && Decided(Apply(l, s, e).jobs[n].stage, valid)
  {
  }

  lemma {:induction false} LockDecides(l: Layer, r: seq<State>, es: seq<Step>, j: nat, k: nat, n: nat)
    requires ValidLayer(l) && IsRun(l, r, es) && j < k < |r| && es[j] == Lock(n)
    ensures n < |r[k].jobs| && Decided(r[k].jobs[n].stage, r[j].queueAlive)
  {
    assert StepAt(l, r, es, k - 1);
    if j + 1 < k {
      LockDecides(l, r, es, j, k - 1, n);
      DecidedStep(l, r[k - 1], es[k - 1], n, r[j].queueAlive);
    }
  }

  /**
   * Work that a jumper accepted, before or after a worker took the jumper's
   * QueueLock at moment `j`, has been started or can only be started next, if
   * and only if the queue was not deleted at that moment.
   */
  lemma AcceptedWorkRuns(l: Layer, r: seq<State>, es: seq<Step>, j: nat, k: nat, n: nat)
    requires ValidLayer(l) && IsRun(l, r, es) && j < k < |r| && es[j] == Lock(n)
    requires IsJumper(r[k], n) && r[k].jobs[n].jumper.isSet
    ensures HasRun(r[k], n) || Enabled(r[k], Call(n)) <==> r[j].queueAlive
    ensures HasRun(r[k], n) ==> !Enabled(r[k], Call(n))
    ensures Enabled(r[k], Call(n)) ==> IsJumper(Apply(l, r[k], Call(n)), n) && HasRun(Apply(l, r[k], Call(n)), n)
  {
    InvAlways(l, r, es, k);
    LockDecides(l, r, es, j, k, n);
    var s := r[k];
    JobOfInv(l, s, n);
    if HasRun(s, n) {
      var i :| 0 <= i < |s.runs| && s.runs[i].inside == Some(n);
      RunOfInv(l, s, i);
    }
    if Enabled(s, Call(n)) {
      var t := Apply(l, s, Call(n));
      assert t.runs[|s.runs|].inside == Some(n);
    }
  }

  /** Before the lock is taken nothing has been started, and the worker that pops the jumper takes the lock next. */
  lemma NotYetLocked(l: Layer, r: seq<State>, es: seq<Step>, k: nat, n: nat)
    requires ValidLayer(l) && IsRun(l, r, es) && k < |r| && IsJumper(r[k], n)
    requires r[k].jobs[n].stage.Queued? || r[k].jobs[n].stage.Taken?
    ensures !HasRun(r[k], n) && (Enabled(r[k], Take(n)) || Enabled(r[k], Lock(n)))
  {
    InvAlways(l, r, es, k);
    forall i | 0 <= i < |r[k].runs| ensures r[k].runs[i].inside != Some(n) { RunOfInv(l, r[k], i); }
  }

  function FirstState(): State {
    State(true, [FetchJob(0, Queued)], [], [], 0, Scheduled(0, 0))
  }

  /** A run goes on with any step that is possible. */
  lemma Extend(l: Layer, r: seq<State>, es: seq<Step>, e: Step) returns (q: seq<State>, fs: seq<Step>)
    requires IsRun(l, r, es) && Enabled(r[|r| - 1], e)
    ensures q == r + [Apply(l, r[|r| - 1], e)] && fs == es + [e] && IsRun(l, q, fs)
  {
    q, fs := r + [Apply(l, r[|r| - 1], e)], es + [e];
    forall k | 0 <= k < |fs| ensures StepAt(l, q, fs, k) {
      if k < |es| { assert StepAt(l, r, es, k); }
    }
  }

  const TWO_ROWS := Layer(2, 2, 1)

  /** The first fetcher of a layer of two rows has opened its jumper, which is job 1. */
  lemma FirstFetch() returns (r: seq<State>, es: seq<Step>)
    ensures IsRun(TWO_ROWS, r, es)
    ensures r[|r| - 1] == State(true, [FetchJob(0, Called(Some(0))), JumperJob(NEW_JUMPER, Queued)],
                                [Run(0, None, Fetching(1))], [], 0, Active(0))
  {
    r, es := [FirstState()], [];
    r, es := Extend(TWO_ROWS, r, es, Take(0));
    r, es := Extend(TWO_ROWS, r, es, Lock(0));
    r, es := Extend(TWO_ROWS, r, es, Call(0));
    r, es := Extend(TWO_ROWS, r, es, Open(0));
  }

  /**
   * The promise of `setWork` can be broken: the queue is deleted, a worker takes
   * the lock of the jumper in vain, and then the jumper accepts row 1.
   */
  lemma AcceptedButDropped() returns (r: seq<State>, es: seq<Step>)
    ensures ValidLayer(TWO_ROWS) && IsRun(TWO_ROWS, r, es)
    ensures var s := r[|r| - 1];
      IsJumper(s, 1) && s.jobs[1] == JumperJob(Jumper(true, true, 1), Gone) && s.place == Dropped(1)
  {
    r, es := FirstFetch();
    r, es := Extend(TWO_ROWS, r, es, DeleteQueue);
    r, es := Extend(TWO_ROWS, r, es, Take(1));
    r, es := Extend(TWO_ROWS, r, es, Lock(1));
    r, es := Extend(TWO_ROWS, r, es, Drop(1));
    r, es := Extend(TWO_ROWS, r, es, FillRow(0));
    r, es := Extend(TWO_ROWS, r, es, PassOn(0));
  }

  /**
   * It can also be kept after deletion: the lock was taken in time, the queue is
   * deleted, row 1 is accepted, and runs.
   */
  lemma AcceptedAfterDeletionRuns() returns (r: seq<State>, es: seq<Step>)
    ensures ValidLayer(TWO_ROWS) && IsRun(TWO_ROWS, r, es) && |r| > 2
    ensures !r[|r| - 3].queueAlive && es[|es| - 2] == PassOn(0) && r[|r| - 2].place == Riding(1, 1)
    ensures r[|r| - 1].place == Active(1) && |r[|r| - 1].runs| == 2 && r[|r| - 1].runs[1] == Run(1, Some(1), Entered)
  {
    r, es := FirstFetch();
    r, es := Extend(TWO_ROWS, r, es, Take(1));
    r, es := Extend(TWO_ROWS, r, es, Lock(1));
    r, es := Extend(TWO_ROWS, r, es, DeleteQueue);
    r, es := Extend(TWO_ROWS, r, es, FillRow(0));
    r, es := Extend(TWO_ROWS, r, es, PassOn(0));
    r, es := Extend(TWO_ROWS, r, es, Call(1));
  }

  // ------------------------------------------------------------------
  // Progress

  function JobWeight(j: Job): nat {
    match j.stage
    case Queued => 3
    case Taken => 2
    case Locked(_) => 1
    case _ => 0
  }

  /** A run that may schedule a job or pass the chain on weighs as much as what it leaves behind. */
  function RunWeight(run: Run): nat {
    match run.phase
    case Entered => 5
    case Fetching(_) => 1
    case Filled(_) => 11
    case Refused => 10
    case Leaving => 1
    case Ended => 0
  }

  /** Rows still to be filled, the chain on its way to the next run, jobs and runs. */
  function Measure(l: Layer, s: State): int {
    11 * (l.rows - RowsFilled(l, s)) + (if s.place.Scheduled? || s.place.Riding? then 5 else 0)
    + Weigh(JobWeight, s.jobs) + Weigh(RunWeight, s.runs)
  }

  lemma JobsWeighed(s: State, n: nat, j: Job)
    requires n < |s.jobs|
    ensures Weigh(JobWeight, s.jobs[n := j]) == Weigh(JobWeight, s.jobs) + JobWeight(j) - JobWeight(s.jobs[n])
  {
    WeighToUpdate(JobWeight, s.jobs, n, j, |s.jobs|);
  }

  lemma RunsWeighed(s: State, i: nat, run: Run)
    requires i < |s.runs|
    ensures Weigh(RunWeight, s.runs[i := run]) == Weigh(RunWeight, s.runs) + RunWeight(run) - RunWeight(s.runs[i])
  {
    WeighToUpdate(RunWeight, s.runs, i, run, |s.runs|);
  }

  lemma WorkerLowers(l: Layer, s: State, e: Step, n: nat)
    requires Inv(l, s) && Enabled(s, e) && (e == Take(n) || e == Lock(n) || e == Drop(n) || e == Call(n))
    ensures Measure(l, Apply(l, s, e)) < Measure(l, s)
  {
    var t := Apply(l, s, e);
    JobsWeighed(s, n, t.jobs[n]);
    assert t.jobs == s.jobs[n := t.jobs[n]];
    if e == Call(n) && (s.jobs[n].FetchJob? || s.jobs[n].jumper.isSet) {
      CallStarts(l, s, n);
      WeighAppend(RunWeight, s.runs, t.runs[|s.runs|]);
    }
  }

  lemma RunLowers(l: Layer, s: State, e: Step, i: nat)
    requires Inv(l, s) && Enabled(s, e) && (e == Open(i) || e == FillRow(i) || e == Reschedule(i))
    ensures Measure(l, Apply(l, s, e)) < Measure(l, s)
  {
    var t := Apply(l, s, e);
    RunOfInv(l, s, i);
    RunsWeighed(s, i, t.runs[i]);
    if !e.FillRow? { WeighAppend(JobWeight, s.jobs, t.jobs[|s.jobs|]); }
  }

  lemma PassOnLowers(l: Layer, s: State, i: nat)
    requires Inv(l, s) && Enabled(s, PassOn(i))
    ensures Measure(l, Apply(l, s, PassOn(i))) < Measure(l, s)
  {
    var t := Apply(l, s, PassOn(i));
    RunOfInv(l, s, i);
    RunsWeighed(s, i, t.runs[i]);
    var n := s.runs[i].phase.jumper;
    JobsWeighed(s, n, t.jobs[n]);
    assert t.jobs == s.jobs[n := t.jobs[n]];
  }

  lemma EndLowers(l: Layer, s: State, i: nat)
    requires Inv(l, s) && Enabled(s, End(i))
    ensures Measure(l, Apply(l, s, End(i))) < Measure(l, s)
  {
    var t := Apply(l, s, End(i));
    RunOfInv(l, s, i);
    RunsWeighed(s, i, t.runs[i]);
    if s.runs[i].inside.Some? {
      var n := s.runs[i].inside.value;
      JobsWeighed(s, n, t.jobs[n]);
      assert t.jobs == s.jobs[n := t.jobs[n]];
    }
  }

  /** The step by which a waiting chain goes on. */
  function NextStep(s: State): Step {
    match s.place
    case Scheduled(_, n) => JobStep(s, n)
    case Riding(_, n) => JobStep(s, n)
    case Active(i) =>
      if i >= |s.runs| then DeleteQueue
      else (
        match s.runs[i].phase
        case Entered => Open(i)
        case Fetching(_) => FillRow(i)
        case Filled(_) => PassOn(i)
        case _ => Reschedule(i))
    case _ => DeleteQueue
  }

  function JobStep(s: State, n: nat): Step {
    if n >= |s.jobs| then DeleteQueue
    else
      match s.jobs[n].stage
      case Queued => Take(n)
      case Taken => Lock(n)
      case _ => Call(n)
  }

  /**
   * The chain makes progress: every step but the deletion lowers a measure, and
   * until it is done or dropped some step is possible.
   */
  lemma ChainProgresses(l: Layer, r: seq<State>, es: seq<Step>, k: nat, e: Step)
    requires ValidLayer(l) && IsRun(l, r, es) && k < |r|
    ensures Measure(l, r[k]) >= 0
    ensures Enabled(r[k], e) && !e.DeleteQueue? ==> Measure(l, Apply(l, r[k], e)) < Measure(l, r[k])
    ensures !r[k].place.Done? && !r[k].place.Dropped? ==> exists f :: Enabled(r[k], f) && !f.DeleteQueue?
  {
    InvAlways(l, r, es, k);
    var s := r[k];
    if s.place.Active? { RunOfInv(l, s, s.place.i); }
    if Enabled(s, e) {
      match e {
        case Take(n) => WorkerLowers(l, s, e, n);
        case Lock(n) => WorkerLowers(l, s, e, n);
        case Call(n) => WorkerLowers(l, s, e, n);
        case Drop(n) => WorkerLowers(l, s, e, n);
        case PassOn(i) => PassOnLowers(l, s, i);
        case End(i) => EndLowers(l, s, i);
        case DeleteQueue =>
        case _ => RunLowers(l, s, e, e.i);
      }
    }
    if s.place.Riding? { JobOfInv(l, s, s.place.n); }
    if !s.place.Done? && !s.place.Dropped? { assert Enabled(s, NextStep(s)) && !NextStep(s).DeleteQueue?; }
  }

  /** Whoever is in the middle of a step can finish it: no job in a worker's hand and no run is ever stuck. */
  lemma NobodyStuck(l: Layer, r: seq<State>, es: seq<Step>, k: nat, n: nat, i: nat)
    requires ValidLayer(l) && IsRun(l, r, es) && k < |r|
    ensures n < |r[k].jobs| && (r[k].jobs[n].stage.Taken? || r[k].jobs[n].stage.Locked?) ==>
      Enabled(r[k], Lock(n)) || Enabled(r[k], Call(n)) || Enabled(r[k], Drop(n))
    ensures i < |r[k].runs| && !r[k].runs[i].phase.Ended? ==>
      Enabled(r[k], Open(i)) || Enabled(r[k], FillRow(i)) || Enabled(r[k], PassOn(i))
      || Enabled(r[k], Reschedule(i)) || Enabled(r[k], End(i))
  {
    InvAlways(l, r, es, k);
    if i < |r[k].runs| { RunOfInv(l, r[k], i); }
  }
}
