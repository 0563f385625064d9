/**
 * Who may do what, and when, while a bitmap is loaded: tile rows are fetched
 * in order, every finished tile is reduced into its target by a job that
 * stores one pixel at a time, all jobs interleave, and the job that finishes
 * last reports its target finished.  Pixel values are left to module Pyramid.
 */
module LoadProtocol {
  import opened Layers

  /**
   * The wired tiles: `cols` x `rows` of them in the bottom layer, `depth`
   * layers; one job stores `pixels` pixels.
   */
  datatype Plan = Plan(all: set<Tile>, depth: nat, cols: nat, rows: nat, pixels: nat)

  /** The tile of the next layer that `t` is reduced into. */
  function Target(t: Tile): Tile {
    if t.Tile? then Tile(t.k + 1, t.i / 8, t.j / 8) else t
  }

  /** What `TiledBitmap::connect` guarantees; see Layers.Connect and Pyramid.PlanIsValid. */
  ghost predicate Valid(p: Plan) {
    && p.cols > 0
    && (forall t :: t in p.all ==> t.Tile? && t.k < p.depth)
    && (forall i: nat, j: nat :: Tile(0, i, j) in p.all <==> i < p.cols && j < p.rows)
    && (forall t {:trigger Connected(p, t)} :: t in p.all ==> Connected(p, t))
  }

  /** The target of a tile exists, and a tile above the bottom layer has a source. */
  ghost predicate Connected(p: Plan, t: Tile) {
    t.Tile? && (t.k + 1 < p.depth ==> Target(t) in p.all) && (t.k > 0 ==> Sources(p, t) != {})
  }

  ghost function Sources(p: Plan, t: Tile): (s: set<Tile>)
    ensures forall x :: x in s <==> x in p.all && Target(x) == t
  {
    set x | x in p.all && Target(x) == t
  }

  /** State of the reduce job of a source tile; `Writing(n)` has stored its first `n` pixels. */
  datatype Phase = Idle | Pending | Writing(n: nat) | Reduced

  /**
   * `row`, `filled`, `col`: progress of the fetcher.  `reports`: how often each
   * tile was reported finished.  `unfinished`: each coordinator's counter.
   * `defect`: "Too many tiles are finished".
   */
  datatype Control = Control(
    row: nat, filled: bool, col: nat,
    reports: multiset<Tile>,
    phase: map<Tile, Phase>,
    unfinished: map<Tile, int>,
    finishedCount: nat,
    defect: bool)

  datatype Step = Fill | ReportFetched | Begin(t: Tile) | Write(t: Tile) | Finish(t: Tile)

  function PhaseOf(phase: map<Tile, Phase>, t: Tile): Phase {
    if t in phase then phase[t] else Idle
  }

  function Counter(unfinished: map<Tile, int>, t: Tile): int {
    if t in unfinished then unfinished[t] else 0
  }

  predicate Enabled(p: Plan, s: Control, e: Step) {
    match e
    case Fill => s.row < p.rows && !s.filled
    case ReportFetched => s.filled && s.col < p.cols
    case Begin(t) => t in p.all && PhaseOf(s.phase, t).Pending?
    case Write(t) => t in p.all && PhaseOf(s.phase, t).Writing? && PhaseOf(s.phase, t).n < p.pixels
    case Finish(t) => t in p.all && PhaseOf(s.phase, t).Writing? && PhaseOf(s.phase, t).n == p.pixels
  }

  /** `reportFinished`: the progress observer counts, the coordinator of the next layer schedules a job. */
  function Report(p: Plan, s: Control, t: Tile): Control {
    s.(reports := s.reports + multiset{t},
       finishedCount := s.finishedCount + 1,
       defect := s.defect || s.finishedCount + 1 > |p.all|,
       phase := if t.k + 1 < p.depth then s.phase[t := Pending] else s.phase)
  }

  /** `unfinishedSourceTiles--` and, at zero, `reportFinished` on the target. */
  function Reducing(p: Plan, s: Control, t: Tile): Control {
    s.(phase := s.phase[t := Reduced], unfinished := s.unfinished[Target(t) := Counter(s.unfinished, Target(t)) - 1])
  }

  function Apply(p: Plan, s: Control, e: Step): Control
    requires Enabled(p, s, e)
  {
    match e
    case Fill => s.(filled := true, col := 0)
    case ReportFetched =>
      var r := Report(p, s, Tile(0, s.col, s.row));
      if s.col + 1 < p.cols then r.(col := s.col + 1) else r.(row := s.row + 1, filled := false, col := 0)
    case Begin(t) => s.(phase := s.phase[t := Writing(0)])
    case Write(t) => s.(phase := s.phase[t := Writing(PhaseOf(s.phase, t).n + 1)])
    case Finish(t) =>
      var r := Reducing(p, s, t);
      if Counter(r.unfinished, Target(t)) == 0 then Report(p, r, Target(t)) else r
  }

  ghost predicate Init(p: Plan, s: Control) {
    && s.row == 0 && !s.filled && s.col == 0 && s.finishedCount == 0 && !s.defect
    && s.reports == multiset{} && s.phase == map[]
    && (forall t :: t in p.all ==> Counter(s.unfinished, t) == |Sources(p, t)|)
  }

  // ------------------------------------------------------------------
  // Invariants

  ghost predicate FetchOk(p: Plan, s: Control) {
    && s.row <= p.rows
    && (s.filled ==> s.row < p.rows && s.col < p.cols)
    && (!s.filled ==> s.col == 0)
  }

  predicate Fetched(s: Control, t: Tile)
    requires t.Tile?
  {
    t.j < s.row || (t.j == s.row && s.filled && t.i < s.col)
  }

  /** The source tiles of `t` whose job has not finished. */
  ghost function Unreduced(p: Plan, phase: map<Tile, Phase>, t: Tile): (r: set<Tile>)
    ensures forall x :: x in r <==> x in p.all && Target(x) == t && !PhaseOf(phase, x).Reduced?
  {
    set x | x in p.all && Target(x) == t && !PhaseOf(phase, x).Reduced?
  }

  /** A tile is finished once it is fetched, or once all its sources have been reduced into it. */
  ghost predicate Complete(p: Plan, s: Control, t: Tile)
    requires t.Tile?
  {
    if t.k == 0 then Fetched(s, t) else Unreduced(p, s.phase, t) == {}
  }

  ghost predicate TileOk(p: Plan, s: Control, t: Tile)
    requires t.Tile?
  {
    && s.reports[t] == (if Complete(p, s, t) then 1 else 0)
    && (PhaseOf(s.phase, t).Idle? <==> t.k + 1 == p.depth || s.reports[t] == 0)
    && (PhaseOf(s.phase, t).Writing? ==> PhaseOf(s.phase, t).n <= p.pixels)
    && (t.k > 0 ==> Counter(s.unfinished, t) == |Unreduced(p, s.phase, t)|)
  }

  ghost predicate TilesOk(p: Plan, s: Control)
    requires Valid(p)
  {
    forall t :: t in p.all ==> TileOk(p, s, t)
  }

  ghost function FinishedTiles(p: Plan, reports: multiset<Tile>): (r: set<Tile>)
    ensures forall t :: t in r <==> t in p.all && reports[t] > 0
  {
    set t | t in p.all && reports[t] > 0
  }

  ghost predicate TotalOk(p: Plan, s: Control) {
    s.finishedCount == |FinishedTiles(p, s.reports)| && !s.defect
  }

  ghost predicate Inv(p: Plan, s: Control)
    requires Valid(p)
  {
    FetchOk(p, s) && TilesOk(p, s) && TotalOk(p, s)
  }

  lemma SubsetSize<A>(a: set<A>, b: set<A>)
    requires a <= b
    ensures |a| <= |b|
    ensures |a| == |b| ==> a == b
  {
    assert b == a + (b - a);
  }

  /** Reporting a tile for the first time keeps the total right and below the number of tiles. */
  lemma ReportTotal(p: Plan, s: Control, t: Tile)
    requires t in p.all && TotalOk(p, s) && s.reports[t] == 0
    ensures TotalOk(p, Report(p, s, t))
  {
    var a, b := FinishedTiles(p, s.reports), FinishedTiles(p, s.reports + multiset{t});
    assert b == a + {t};
    SubsetSize(b, p.all);
  }

  lemma UnreducedSame(p: Plan, f: map<Tile, Phase>, g: map<Tile, Phase>, t: Tile)
    requires forall x :: x in p.all && Target(x) == t ==> (PhaseOf(f, x).Reduced? <==> PhaseOf(g, x).Reduced?)
    ensures Unreduced(p, f, t) == Unreduced(p, g, t)
  {
  }

  lemma FillStep(p: Plan, s: Control)
    requires Valid(p) && Inv(p, s) && Enabled(p, s, Fill)
    ensures Inv(p, Apply(p, s, Fill))
  {
    var n := Apply(p, s, Fill);
    forall x | x in p.all ensures TileOk(p, n, x) {
      assert TileOk(p, s, x);
    }
  }

  lemma FetchTile(p: Plan, s: Control, x: Tile)
    requires Valid(p) && Inv(p, s) && Enabled(p, s, ReportFetched) && x in p.all
    ensures x.Tile? && TileOk(p, Apply(p, s, ReportFetched), x)
  {
    var t := Tile(0, s.col, s.row);
    assert t in p.all;
    assert TileOk(p, s, t) && !Complete(p, s, t);
    assert TileOk(p, s, x);
    UnreducedSame(p, s.phase, Apply(p, s, ReportFetched).phase, x);
  }

  lemma FetchStep(p: Plan, s: Control)
    requires Valid(p) && Inv(p, s) && Enabled(p, s, ReportFetched)
    ensures Inv(p, Apply(p, s, ReportFetched))
  {
    var t := Tile(0, s.col, s.row);
    var n := Apply(p, s, ReportFetched);
    assert t in p.all;
    assert TileOk(p, s, t) && !Complete(p, s, t);
    ReportTotal(p, s, t);
    forall x | x in p.all ensures TileOk(p, n, x) { FetchTile(p, s, x); }
  }

  lemma JobStep(p: Plan, s: Control, e: Step)
    requires Valid(p) && Inv(p, s) && Enabled(p, s, e) && (e.Begin? || e.Write?)
    ensures Inv(p, Apply(p, s, e))
  {
    var n := Apply(p, s, e);
    forall x | x in p.all ensures TileOk(p, n, x) {
      assert TileOk(p, s, x);
      assert TileOk(p, s, e.t);
      UnreducedSame(p, s.phase, n.phase, x);
    }
  }

  lemma JobBelowTop(p: Plan, s: Control, t: Tile)
    requires Valid(p) && TilesOk(p, s) && t in p.all && !PhaseOf(s.phase, t).Idle?
    ensures t.k + 1 < p.depth && Target(t) in p.all && s.reports[t] == 1
  {
    assert TileOk(p, s, t) && Connected(p, t);
  }

  /** A job that may finish: it is below the top layer and its target waits for it. */
  ghost predicate Finishing(p: Plan, s: Control, t: Tile) {
    && t in p.all && t.Tile? && t.k + 1 < p.depth && Target(t) in p.all
    && Enabled(p, s, Finish(t)) && TileOk(p, s, t) && TileOk(p, s, Target(t))
  }

  lemma CanFinish(p: Plan, s: Control, t: Tile)
    requires Valid(p) && Inv(p, s) && Enabled(p, s, Finish(t))
    ensures Finishing(p, s, t)
  {
    JobBelowTop(p, s, t);
    assert TileOk(p, s, Target(t));
  }

  /** The finished job leaves every tile but its target as it was. */
  lemma FinishOthers(p: Plan, s: Control, t: Tile, x: Tile)
    requires Finishing(p, s, t) && x in p.all && x.Tile? && x != Target(t) && TileOk(p, s, x)
    ensures TileOk(p, Apply(p, s, Finish(t)), x)
  {
    UnreducedSame(p, s.phase, Apply(p, s, Finish(t)).phase, x);
  }

  lemma OneLess(p: Plan, s: Control, t: Tile)
    requires Finishing(p, s, t)
    ensures Unreduced(p, Reducing(p, s, t).phase, Target(t)) == Unreduced(p, s.phase, Target(t)) - {t}
    ensures t in Unreduced(p, s.phase, Target(t))
    ensures s.reports[Target(t)] == 0 && PhaseOf(s.phase, Target(t)).Idle?
  {
  }

  /** Its target has one source less to wait for, and is reported with the last one. */
  lemma FinishTarget(p: Plan, s: Control, t: Tile)
    requires Finishing(p, s, t)
    ensures TileOk(p, Apply(p, s, Finish(t)), Target(t))
  {
    OneLess(p, s, t);
    var left := Unreduced(p, s.phase, Target(t)) - {t};
    UnreducedSame(p, Reducing(p, s, t).phase, Apply(p, s, Finish(t)).phase, Target(t));
    assert Unreduced(p, Apply(p, s, Finish(t)).phase, Target(t)) == left;
    assert Counter(Reducing(p, s, t).unfinished, Target(t)) == |left|;
    assert |left| == 0 <==> left == {};
  }

  lemma FinishTotal(p: Plan, s: Control, t: Tile)
    requires Finishing(p, s, t) && TotalOk(p, s)
    ensures TotalOk(p, Apply(p, s, Finish(t)))
  {
    OneLess(p, s, t);
    var m := Reducing(p, s, t);
    assert FinishedTiles(p, m.reports) == FinishedTiles(p, s.reports);
    ReportTotal(p, m, Target(t));
  }

  lemma FinishStep(p: Plan, s: Control, t: Tile)
    requires Valid(p) && Inv(p, s) && Enabled(p, s, Finish(t))
    ensures Inv(p, Apply(p, s, Finish(t)))
  {
    CanFinish(p, s, t);
    FinishTotal(p, s, t);
    forall x | x in p.all ensures TileOk(p, Apply(p, s, Finish(t)), x) {
      assert TileOk(p, s, x);
      if x == Target(t) { FinishTarget(p, s, t); } else { FinishOthers(p, s, t, x); }
    }
  }

  lemma InvStep(p: Plan, s: Control, e: Step)
    requires Valid(p) && Inv(p, s) && Enabled(p, s, e)
    ensures Inv(p, Apply(p, s, e))
  {
    match e
    case Fill => FillStep(p, s);
    case ReportFetched => FetchStep(p, s);
    case Begin(_) => JobStep(p, s, e);
    case Write(_) => JobStep(p, s, e);
    case Finish(t) => FinishStep(p, s, t);
  }

  lemma InvInit(p: Plan, s: Control)
    requires Valid(p) && Init(p, s)
    ensures Inv(p, s)
  {
    forall t | t in p.all ensures TileOk(p, s, t) {
      assert Connected(p, t);
      assert Unreduced(p, s.phase, t) == Sources(p, t);
    }
    assert FinishedTiles(p, s.reports) == {};
  }

  // ------------------------------------------------------------------
  // Progress

  /** Steps still to be taken for source tile `t`: begin, one per pixel, finish. */
  function Work(p: Plan, phase: map<Tile, Phase>, t: Tile): nat {
    if !t.Tile? || t.k + 1 >= p.depth then 0 else
      match PhaseOf(phase, t)
      case Idle => p.pixels + 2
      case Pending => p.pixels + 2
      case Writing(n) => if n <= p.pixels then p.pixels + 1 - n else 0
      case Reduced => 0
  }

  ghost function TotalWork(p: Plan, phase: map<Tile, Phase>, ts: set<Tile>): nat {
    if ts == {} then 0 else
      var t :| t in ts;
      Work(p, phase, t) + TotalWork(p, phase, ts - {t})
  }

  lemma {:induction false} WorkRemove(p: Plan, phase: map<Tile, Phase>, ts: set<Tile>, t: Tile)
    requires t in ts
    ensures TotalWork(p, phase, ts) == Work(p, phase, t) + TotalWork(p, phase, ts - {t})
    decreases |ts|
  {
    var x :| x in ts && TotalWork(p, phase, ts) == Work(p, phase, x) + TotalWork(p, phase, ts - {x});
    if x != t {
      WorkRemove(p, phase, ts - {x}, t);
      WorkRemove(p, phase, ts - {t}, x);
      assert ts - {x} - {t} == ts - {t} - {x};
    }
  }

  lemma {:induction false} WorkSame(p: Plan, f: map<Tile, Phase>, g: map<Tile, Phase>, ts: set<Tile>)
    requires forall x :: x in ts ==> Work(p, f, x) == Work(p, g, x)
    ensures TotalWork(p, f, ts) == TotalWork(p, g, ts)
    decreases |ts|
  {
    if ts != {} {
      var t :| t in ts;
      WorkRemove(p, f, ts, t);
      WorkRemove(p, g, ts, t);
      WorkSame(p, f, g, ts - {t});
    }
  }

  /** Total work changes by what changes at the one tile that moves. */
  lemma WorkChange(p: Plan, f: map<Tile, Phase>, g: map<Tile, Phase>, t: Tile)
    requires t in p.all && forall x :: x in p.all && x != t ==> Work(p, f, x) == Work(p, g, x)
    ensures TotalWork(p, g, p.all) - Work(p, g, t) == TotalWork(p, f, p.all) - Work(p, f, t)
  {
    WorkRemove(p, f, p.all, t);
    WorkRemove(p, g, p.all, t);
    WorkSame(p, f, g, p.all - {t});
  }

  /** Steps to fetch `n` whole rows. */
  function RowsWork(n: nat, cols: nat): (r: nat)
    ensures n > 0 ==> r > cols
  {
    if n == 0 then 0 else cols + 1 + RowsWork(n - 1, cols)
  }

  /** Rows still to be filled and bottom tiles still to be reported. */
  function FetchWork(p: Plan, row: nat, filled: bool, col: nat): int {
    (if row < p.rows then RowsWork(p.rows - row, p.cols) else 0) - (if filled then 1 + col else 0)
  }

  /** What is left to do: fetching, and the jobs of all source tiles. */
  ghost function Remaining(p: Plan, s: Control): int {
    FetchWork(p, s.row, s.filled, s.col) + TotalWork(p, s.phase, p.all)
  }

  lemma FetchWorkStep(p: Plan, row: nat, col: nat)
    requires row < p.rows && col < p.cols
    ensures FetchWork(p, row, true, col + 1) == FetchWork(p, row, true, col) - 1
    ensures FetchWork(p, row + 1, false, 0) == FetchWork(p, row, true, p.cols)
  {
  }

  lemma FetchUsesOneUnit(p: Plan, s: Control)
    requires Enabled(p, s, ReportFetched) && s.row < p.rows
    requires p.depth > 1 ==> PhaseOf(s.phase, Tile(0, s.col, s.row)).Idle?
    ensures Remaining(p, Apply(p, s, ReportFetched)) == Remaining(p, s) - 1
  {
    WorkSame(p, s.phase, Apply(p, s, ReportFetched).phase, p.all);
    FetchWorkStep(p, s.row, s.col);
  }

  lemma FinishUsesOneUnit(p: Plan, s: Control, t: Tile)
    requires Finishing(p, s, t)
    ensures Remaining(p, Apply(p, s, Finish(t))) == Remaining(p, s) - 1
  {
    OneLess(p, s, t);
    WorkChange(p, s.phase, Apply(p, s, Finish(t)).phase, t);
  }

  lemma JobUsesOneUnit(p: Plan, s: Control, e: Step)
    requires Enabled(p, s, e) && (e.Begin? || e.Write?) && e.t.Tile? && e.t.k + 1 < p.depth
    ensures Remaining(p, Apply(p, s, e)) == Remaining(p, s) - 1
  {
    WorkChange(p, s.phase, Apply(p, s, e).phase, e.t);
  }

  lemma RemainingNonNegative(p: Plan, s: Control)
    requires FetchOk(p, s)
    ensures Remaining(p, s) >= 0
  {
  }

  /** Every step uses up exactly one unit, so every load takes the same number of steps whatever the interleaving. */
  lemma StepUsesOneUnit(p: Plan, s: Control, e: Step)
    requires Valid(p) && Inv(p, s) && Enabled(p, s, e)
    ensures Remaining(p, Apply(p, s, e)) == Remaining(p, s) - 1 >= 0
  {
    InvStep(p, s, e);
    RemainingNonNegative(p, Apply(p, s, e));
    match e
    case Fill =>
    case ReportFetched =>
      assert Tile(0, s.col, s.row) in p.all;
      assert TileOk(p, s, Tile(0, s.col, s.row));
      FetchUsesOneUnit(p, s);
    case Begin(t) =>
      JobBelowTop(p, s, t);
      JobUsesOneUnit(p, s, e);
    case Write(t) =>
      JobBelowTop(p, s, t);
      JobUsesOneUnit(p, s, e);
    case Finish(t) =>
      CanFinish(p, s, t);
      FinishUsesOneUnit(p, s, t);
  }

  ghost predicate Quiet(p: Plan, s: Control) {
    forall e :: !Enabled(p, s, e)
  }

  /** When nothing can move any more every tile of layer `k` has been reported. */
  lemma {:induction false} QuietLayer(p: Plan, s: Control, t: Tile)
    requires Valid(p) && Inv(p, s) && Quiet(p, s) && t in p.all
    ensures s.reports[t] == 1 && (t.k + 1 < p.depth ==> PhaseOf(s.phase, t).Reduced?)
    decreases t.k
  {
    assert !Enabled(p, s, Fill) && !Enabled(p, s, ReportFetched);
    assert !Enabled(p, s, Begin(t)) && !Enabled(p, s, Write(t)) && !Enabled(p, s, Finish(t));
    assert TileOk(p, s, t);
    if t.k == 0 {
      assert Tile(0, t.i, t.j) in p.all;
    } else {
      forall x | x in Unreduced(p, s.phase, t) ensures false {
        QuietLayer(p, s, x);
      }
    }
  }

  /**
   * A load that has come to rest is complete: every tile has been reported
   * exactly once and the progress counter equals the number of tiles.
   */
  lemma QuietIsFinished(p: Plan, s: Control)
    requires Valid(p) && Inv(p, s) && Quiet(p, s)
    ensures forall t :: t in p.all ==> s.reports[t] == 1
    ensures s.finishedCount == |p.all| && !s.defect
  {
    forall t | t in p.all ensures s.reports[t] == 1 {
      QuietLayer(p, s, t);
    }
    assert FinishedTiles(p, s.reports) == p.all;
  }
}
